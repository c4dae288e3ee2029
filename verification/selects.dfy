/**
 The connection task as four biased `select!`s (src/server.rs:405-475): which futures each of them
 polls and in which order, and what the task does when one is ready. The operations of
 Connection.Task are shown to be exactly these: the first ready branch decides, and the task parks
 when it has polled every branch in vain.
 */
module Selects {
  import opened HandleModel
  import opened Connection

  datatype Branch = OnShutdown | OnGraceful | OnAccept | OnTimer | OnSignal | OnHttp

  /** The branches of a `select!`, in the order in which they are polled. */
  function Branches(s: Stage): seq<Branch> {
    match s
    case Gate => [OnShutdown, OnGraceful, OnAccept]
    case First => [OnShutdown, OnGraceful, OnTimer, OnSignal, OnHttp]
    case Serve => [OnGraceful, OnShutdown, OnHttp]
    case Drain => [OnShutdown, OnHttp]
    case Finished => []
  }

  /** The operations that poll them. */
  function Polling(s: Stage): seq<Pc> {
    match s
    case Gate => [GateShutdown, GateGraceful, GateAccept]
    case First => [FirstShutdown, FirstGraceful, FirstTimer, FirstSignal, FirstHttp]
    case Serve => [ServeGraceful, ServeShutdown, ServeHttp]
    case Drain => [DrainShutdown, DrainHttp]
    case Finished => []
  }

  /** The branch's future is ready, in the shared state `sh` and with the answers `r`. */
  predicate IsReady(b: Branch, c: Conn, sh: Shared, r: Reply) {
    match b
    case OnShutdown => sh.shutdown.Seen(c.first)
    case OnGraceful => sh.graceful.Seen(c.first)
    case OnAccept => !r.accept.AcceptPending?
    case OnTimer => c.deadline <= sh.now
    case OnSignal => !c.signal.Held?
    case OnHttp => r.http.ready
  }

  /** What the task does next: its body returns, or it goes on to another `select!`. */
  datatype Verdict = Return(why: Exit) | GoOn(stage: Stage)

  /** What the source says a ready branch leads to. */
  function Leads(cfg: Config, s: Stage, b: Branch, c: Conn, r: Reply): Verdict {
    match b
    case OnShutdown => Return(SawShutdown)
    case OnGraceful => if s.Gate? then Return(SawGraceful) else if s.First? then GoOn(Serve) else GoOn(Drain)
    case OnAccept =>
      if r.accept.AcceptErr? then Return(AcceptFailed)
      else if cfg.firstRequest.Some? then GoOn(First)
      else GoOn(Serve)
    case OnTimer => Return(TimedOut)
    case OnSignal => if c.signal.Sent? then GoOn(Serve) else Return(SenderGone)
    case OnHttp => Return(HttpDone)
  }

  /** Branch `b` of `s` was ready and took the task from `c` and `sh` to `c'` and `sh'`. */
  predicate Fires(cfg: Config, s: Stage, b: Branch, c: Conn, sh: Shared, r: Reply, c': Conn, sh': Shared) {
    && sh' == (if b.OnAccept? && r.accept.AcceptErr? then sh.Report(cfg) else sh)
    && c'.first
    && c'.acceptReady == (c.acceptReady || b.OnAccept?)
    && c'.rxReady == (c.rxReady || b.OnSignal?)
    && (b.OnHttp? ==> c'.httpReady)
    && c'.gracefulCalls == c.gracefulCalls + (if s.Serve? && b.OnGraceful? then 1 else 0)
    && match Leads(cfg, s, b, c, r)
       case Return(why) => c'.pc == Leaving(Subtract) && c'.exit == why
       case GoOn(t) =>
         && c'.pc == HeadOf(t) && c'.exit == Running
         && (b.OnAccept? && cfg.firstRequest.Some? ==> c'.deadline == sh.now + cfg.firstRequest.value)
         && (!b.OnAccept? ==> c'.deadline == c.deadline)
  }

  /** The task is about to poll branch `j` of `s`. */
  predicate AtBranch(c: Conn, s: Stage, j: nat) {
    j < |Branches(s)| && c.pc == Polling(s)[j] && c.exit.Running?
  }

  /** What one operation does at branch `j`: ready, it fires; pending, the next is polled, or the task parks. */
  predicate Polled(cfg: Config, s: Stage, j: nat, c: Conn, sh: Shared, r: Reply, c': Conn, sh': Shared)
    requires j < |Branches(s)|
  {
    if IsReady(Branches(s)[j], c, sh, r) then Fires(cfg, s, Branches(s)[j], c, sh, r, c', sh')
    else if j + 1 < |Branches(s)| then (c', sh') == (c.(pc := Polling(s)[j + 1]), sh)
    else sh' == sh && c' == c.(pc := HeadOf(s), first := false, signal := c'.signal, httpReady := c'.httpReady)
  }

  lemma AcceptStep(cfg: Config, s: Stage, j: nat, c: Conn, sh: Shared, r: Reply)
    requires AtBranch(c, s, j) && c.PollsAcceptor()
    ensures var (c', sh') := Task(cfg, c, sh, r); Polled(cfg, s, j, c, sh, r, c', sh')
  {
  }

  lemma HttpStep(cfg: Config, s: Stage, j: nat, c: Conn, sh: Shared, r: Reply)
    requires AtBranch(c, s, j) && c.PollsHttp()
    ensures var (c', sh') := Task(cfg, c, sh, r); Polled(cfg, s, j, c, sh, r, c', sh')
  {
  }

  lemma FirstStep(cfg: Config, s: Stage, j: nat, c: Conn, sh: Shared, r: Reply)
    requires AtBranch(c, s, j) && c.InFirst() && !c.PollsHttp()
    ensures var (c', sh') := Task(cfg, c, sh, r); Polled(cfg, s, j, c, sh, r, c', sh')
  {
  }

  lemma LatchStep(cfg: Config, s: Stage, j: nat, c: Conn, sh: Shared, r: Reply)
    requires AtBranch(c, s, j) && !c.InFirst() && !c.PollsHttp() && !c.PollsAcceptor()
    ensures var (c', sh') := Task(cfg, c, sh, r); Polled(cfg, s, j, c, sh, r, c', sh')
  {
  }

  /** One operation polls one branch, and does with it what the source says. */
  lemma BranchStep(cfg: Config, s: Stage, j: nat, c: Conn, sh: Shared, r: Reply)
    requires AtBranch(c, s, j)
    ensures var (c', sh') := Task(cfg, c, sh, r); Polled(cfg, s, j, c, sh, r, c', sh')
  {
    if c.PollsAcceptor() {
      AcceptStep(cfg, s, j, c, sh, r);
    } else if c.PollsHttp() {
      HttpStep(cfg, s, j, c, sh, r);
    } else if c.InFirst() {
      FirstStep(cfg, s, j, c, sh, r);
    } else {
      LatchStep(cfg, s, j, c, sh, r);
    }
  }

  /** At operation `k` the task is at the head of `s`. */
  predicate Enters(cfg: Config, c: Conn, sh: Shared, env: Env, k: nat, s: Stage) {
    && !s.Finished?
    && RunTask(cfg, c, sh, env, k).0.pc == HeadOf(s) && RunTask(cfg, c, sh, env, k).0.exit.Running?
  }

  /** Branch `j` of the `select!` entered at operation `k` is ready when it comes to be polled. */
  predicate ReadyAt(cfg: Config, c: Conn, sh: Shared, env: Env, k: nat, s: Stage, j: nat)
    requires j < |Branches(s)|
  {
    IsReady(Branches(s)[j], RunTask(cfg, c, sh, env, k).0, SeenAt(cfg, c, sh, env, k + j), env.replies(k + j))
  }

  /** None of its first `n` branches is. */
  predicate Pending(cfg: Config, c: Conn, sh: Shared, env: Env, k: nat, s: Stage, n: nat)
    requires n <= |Branches(s)|
  {
    forall j :: 0 <= j < n ==> !ReadyAt(cfg, c, sh, env, k, s, j)
  }

  lemma {:induction false} StillPolling(cfg: Config, c: Conn, sh: Shared, env: Env, k: nat, s: Stage, j: nat)
    requires Enters(cfg, c, sh, env, k, s) && j < |Branches(s)| && Pending(cfg, c, sh, env, k, s, j)
    ensures RunTask(cfg, c, sh, env, k + j).0 == RunTask(cfg, c, sh, env, k).0.(pc := Polling(s)[j])
    decreases j
  {
    if j > 0 {
      StillPolling(cfg, c, sh, env, k, s, j - 1);
      assert !ReadyAt(cfg, c, sh, env, k, s, j - 1);
      RunOne(cfg, c, sh, env, k + j - 1);
      BranchStep(cfg, s, j - 1, RunTask(cfg, c, sh, env, k + j - 1).0, SeenAt(cfg, c, sh, env, k + j - 1),
                 env.replies(k + j - 1));
    }
  }

  /** The first ready branch decides, in the operation that polls it; no later branch is polled. */
  lemma FirstReadyDecides(cfg: Config, c: Conn, sh: Shared, env: Env, k: nat, s: Stage, j: nat)
    requires Enters(cfg, c, sh, env, k, s) && j < |Branches(s)|
    requires Pending(cfg, c, sh, env, k, s, j) && ReadyAt(cfg, c, sh, env, k, s, j)
    ensures var (c', sh') := RunTask(cfg, c, sh, env, k + j + 1);
      Fires(cfg, s, Branches(s)[j], RunTask(cfg, c, sh, env, k).0, SeenAt(cfg, c, sh, env, k + j),
            env.replies(k + j), c', sh')
  {
    StillPolling(cfg, c, sh, env, k, s, j);
    RunOne(cfg, c, sh, env, k + j);
    BranchStep(cfg, s, j, RunTask(cfg, c, sh, env, k + j).0, SeenAt(cfg, c, sh, env, k + j), env.replies(k + j));
  }

  lemma FirstReadyLeads(cfg: Config, c: Conn, sh: Shared, env: Env, k: nat, s: Stage, j: nat)
    requires Enters(cfg, c, sh, env, k, s) && j < |Branches(s)|
    requires Pending(cfg, c, sh, env, k, s, j) && ReadyAt(cfg, c, sh, env, k, s, j)
    ensures var c' := RunTask(cfg, c, sh, env, k + j + 1).0;
      match Leads(cfg, s, Branches(s)[j], RunTask(cfg, c, sh, env, k).0, env.replies(k + j))
      case Return(why) => c'.pc == Leaving(Subtract) && c'.exit == why
      case GoOn(t) => Enters(cfg, c, sh, env, k + j + 1, t) && !c'.Resting() && Left(t) < Left(s)
  {
    FirstReadyDecides(cfg, c, sh, env, k, s, j);
  }

  /** With no branch ready the task parks in the same `select!`, after the operation that polls the last of them. */
  lemma NoneReadyParks(cfg: Config, c: Conn, sh: Shared, env: Env, k: nat, s: Stage)
    requires Enters(cfg, c, sh, env, k, s) && Pending(cfg, c, sh, env, k, s, |Branches(s)|)
    ensures var c' := RunTask(cfg, c, sh, env, k + |Branches(s)|).0;
      c' == RunTask(cfg, c, sh, env, k).0.(first := false, signal := c'.signal, httpReady := c'.httpReady)
  {
    var j := |Branches(s)| - 1;
    assert Pending(cfg, c, sh, env, k, s, j);
    StillPolling(cfg, c, sh, env, k, s, j);
    assert !ReadyAt(cfg, c, sh, env, k, s, j);
    RunOne(cfg, c, sh, env, k + j);
    BranchStep(cfg, s, j, RunTask(cfg, c, sh, env, k + j).0, SeenAt(cfg, c, sh, env, k + j), env.replies(k + j));
  }

  lemma StillInPoll(cfg: Config, c: Conn, sh: Shared, env: Env, n: nat, k: nat, s: Stage, j: nat)
    requires PollEnds(cfg, c, sh, env, n) && k < n && Enters(cfg, c, sh, env, k, s)
    requires j < |Branches(s)| && Pending(cfg, c, sh, env, k, s, j)
    ensures k + j < n
    decreases j
  {
    if j > 0 {
      StillInPoll(cfg, c, sh, env, n, k, s, j - 1);
      StillPolling(cfg, c, sh, env, k, s, j);
    }
  }

  lemma FirstReady(cfg: Config, c: Conn, sh: Shared, env: Env, k: nat, s: Stage) returns (j: nat)
    ensures j <= |Branches(s)| && Pending(cfg, c, sh, env, k, s, j)
    ensures j < |Branches(s)| ==> ReadyAt(cfg, c, sh, env, k, s, j)
  {
    j := 0;
    while j < |Branches(s)| && !ReadyAt(cfg, c, sh, env, k, s, j)
      invariant j <= |Branches(s)| && Pending(cfg, c, sh, env, k, s, j)
    {
      j := j + 1;
    }
  }

  /**
   How the poll of `n` operations ends in the `select!` it entered at operation `m`: parked, every
   branch having been polled in vain, or with the body returning by its first ready branch.
   */
  predicate EndsIn(cfg: Config, c: Conn, sh: Shared, env: Env, n: nat, m: nat, s: Stage, j: nat) {
    && m < n && Enters(cfg, c, sh, env, m, s)
    && j <= |Branches(s)| && Pending(cfg, c, sh, env, m, s, j)
    && var c' := RunTask(cfg, c, sh, env, n).0;
    if j == |Branches(s)| then
      n == m + j && c'.pc == HeadOf(s) && !c'.first && c'.exit == Running
    else
      && ReadyAt(cfg, c, sh, env, m, s, j) && c'.Done()
      && Leads(cfg, s, Branches(s)[j], RunTask(cfg, c, sh, env, m).0, env.replies(m + j)) == Return(c'.exit)
  }

  function Left(s: Stage): nat {
    match s case Gate => 3 case First => 2 case Serve => 1 case Drain => 0 case Finished => 0
  }

  /**
   Every poll, from the head of a `select!` on, is a chain of `select!`s: in each the first ready branch
   decides, and the last one either has no ready branch, and the task parks, or returns from the body.
   So a task never parks without having polled its acceptor or hyper's future, and never ends early.
   */
  lemma {:induction false} PollIsItsSelects(cfg: Config, c: Conn, sh: Shared, env: Env, n: nat, k: nat, s: Stage)
    returns (m: nat, t: Stage, j: nat)
    requires PollEnds(cfg, c, sh, env, n) && k < n && Enters(cfg, c, sh, env, k, s)
    ensures k <= m && EndsIn(cfg, c, sh, env, n, m, t, j)
    decreases Left(s)
  {
    m, t := k, s;
    j := FirstReady(cfg, c, sh, env, k, s);
    if j == |Branches(s)| {
      NoneReadyParks(cfg, c, sh, env, k, s);
      assert Pending(cfg, c, sh, env, k, s, j - 1);
      StillInPoll(cfg, c, sh, env, n, k, s, j - 1);
      return;
    }
    StillInPoll(cfg, c, sh, env, n, k, s, j);
    FirstReadyLeads(cfg, c, sh, env, k, s, j);
    match Leads(cfg, s, Branches(s)[j], RunTask(cfg, c, sh, env, k).0, env.replies(k + j)) {
      case Return(_) =>
        LeavingStays(cfg, c, sh, env, k + j + 1, n);
      case GoOn(t') =>
        m, t, j := PollIsItsSelects(cfg, c, sh, env, n, k + j + 1, t');
    }
  }
}
