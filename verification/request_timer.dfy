/** The first-request timer, in every run of the whole server. */
module RequestTimer {
  import opened Prelude
  import opened Latches
  import opened HandleModel
  import opened Connection
  import opened System

  /**
   In every run of the whole server a task closed by the first-request timer was due: the timer was
   armed when the acceptor finished, its signal had not been seen, and hyper had neither finished
   nor been asked to stop; and no task asks hyper to stop twice.
   */
  lemma TimedOutTasksWereDue(cfg: Config, run: seq<Action>, i: nat)
    requires ValidRun(cfg, START, run) && i < |Exec(cfg, START, run).tasks|
    ensures var s := Exec(cfg, START, run);
      var c := s.tasks[i];
      && c.gracefulCalls <= 1
      && (c.exit == TimedOut ==>
           && cfg.firstRequest.Some? && c.entered + cfg.firstRequest.value <= s.sh.now
           && c.acceptReady && !c.rxReady && !c.httpReady && c.gracefulCalls == 0)
      && (c.exit == HttpDone <==> c.httpReady)
      && (c.PollsHttp() ==> !c.httpReady)
  {
    StartInv(cfg);
    RunInv(cfg, START, run);
    assert Conforms(cfg, Exec(cfg, START, run).tasks[i], Exec(cfg, START, run).sh.now);
  }

  // ---------------------------------------------------------------- a dispatched request may still be cut off

  const DISPATCH := Reply(AcceptOk, HttpReply(false, true, false))

  lemma {:induction false} LetTimePass(cfg: Config, s: System, t: System, k: nat) returns (u: System)
    requires Reaches(cfg, s, t)
    ensures Reaches(cfg, s, u) && u == t.(sh := t.sh.(now := t.sh.now + k))
  {
    u := t;
    if k > 0 {
      u := LetTimePass(cfg, s, t, k - 1);
      u := Next(cfg, s, u, Tick);
    }
  }

  /**
   The first task, suspended after a poll that has dispatched a request in the instant the acceptor
   finished.
   */
  predicate HasDispatched(s: System) {
    && |s.tasks| == 1
    && s.tasks[0].pc.FirstShutdown? && s.tasks[0].Resting()
    && s.tasks[0].signal.Sent? && s.tasks[0].entered == s.sh.now
    && s.sh.shutdown == CLOSED && s.sh.graceful == CLOSED
  }

  lemma FinishHandshake(cfg: Config, s: System, timeout: nat) returns (t: System)
    requires cfg.firstRequest == Some(timeout)
    requires Reaches(cfg, START, s) && s.tasks == [SPAWNED.(pc := GateAccept)]
    requires s.sh.shutdown == CLOSED && s.sh.graceful == CLOSED
    ensures Reaches(cfg, START, t) && t.sh == s.sh
    ensures t.tasks ==
      [SPAWNED.(pc := FirstTimer, entered := s.sh.now, deadline := s.sh.now + timeout, acceptReady := true)]
  {
    t := Next(cfg, START, s, TaskStep(0, DISPATCH));
    t := Next(cfg, START, t, TaskStep(0, DISPATCH));
    t := Next(cfg, START, t, TaskStep(0, DISPATCH));
  }

  lemma DispatchAtOnce(cfg: Config, s: System, timeout: nat) returns (t: System)
    requires cfg.firstRequest == Some(timeout) && timeout > 0
    requires Reaches(cfg, START, s) && s.tasks == [SPAWNED.(pc := GateAccept)]
    requires s.sh.shutdown == CLOSED && s.sh.graceful == CLOSED
    ensures Reaches(cfg, START, t) && HasDispatched(t) && t.tasks[0].deadline == t.sh.now + timeout
  {
    t := FinishHandshake(cfg, s, timeout);
    t := Next(cfg, START, t, TaskStep(0, DISPATCH));
    t := Next(cfg, START, t, TaskStep(0, DISPATCH));
    t := Next(cfg, START, t, TaskStep(0, DISPATCH));
  }

  lemma TimeOut(cfg: Config, s: System, timeout: nat) returns (t: System)
    requires HasDispatched(s) && s.tasks[0].deadline == s.sh.now + timeout
    ensures Reaches(cfg, s, t) && |t.tasks| == 1 && t.tasks[0].exit == TimedOut
  {
    assert ValidRun(cfg, s, []) && Exec(cfg, s, []) == s;
    t := LetTimePass(cfg, s, s, timeout);
    t := Next(cfg, s, t, TaskStep(0, DISPATCH));
    t := Next(cfg, s, t, TaskStep(0, DISPATCH));
    t := Next(cfg, s, t, TaskStep(0, DISPATCH));
  }

  /**
   The timer is polled before the signal, so for every timeout there is a run that dispatches a
   request at once, is polled again only when the timer is due, and is closed by it.
   DispatchedRequestIsSavedIff gives the exact condition.
   */
  lemma DispatchedYetTimedOut(cfg: Config)
    requires cfg.firstRequest.Some? && cfg.firstRequest.value > 0
    ensures exists s: System, t: System ::
      && Reaches(cfg, START, s) && Reaches(cfg, s, t)
      && HasDispatched(s) && |t.tasks| == 1 && t.tasks[0].exit == TimedOut
  {
    assert ValidRun(cfg, START, []) && Exec(cfg, START, []) == START;
    var s := Next(cfg, START, START, ServeStep(BUSY));
    s := Next(cfg, START, s, ServeStep(BUSY));
    s := TakeConnection(cfg, START, s);
    s := PassGate(cfg, START, s, 0);
    s := DispatchAtOnce(cfg, s, cfg.firstRequest.value);
    var t := TimeOut(cfg, s, cfg.firstRequest.value);
  }
}
