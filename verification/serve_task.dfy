/**
 `Server::serve` as the source writes it: loops and `select!`s over an object that keeps what the
 suspended future keeps. Each poll is shown to be a run of ServeModel.ServeStep.
 */
module ServeTask {
  import opened Prelude
  import opened HandleModel
  import opened ServeModel

  /** No operation of the poll before the `n`-th left `serve` at rest. */
  ghost predicate Unrested(cfg: Config, p: Serve, sh: Shared, env: ServeEnv, n: nat) {
    n <= 1 || (Unrested(cfg, p, sh, env, n - 1) && !RunServe(cfg, p, sh, env, n - 1).0.Resting())
  }

  lemma {:induction false} UnrestedEverywhere(cfg: Config, p: Serve, sh: Shared, env: ServeEnv, n: nat)
    requires Unrested(cfg, p, sh, env, n)
    ensures forall k :: 0 < k < n ==> !RunServe(cfg, p, sh, env, k).0.Resting()
  {
    if n > 1 {
      UnrestedEverywhere(cfg, p, sh, env, n - 1);
    }
  }

  /** A poll that has not rested goes on by one operation. */
  lemma Onward(cfg: Config, p: Serve, sh: Shared, env: ServeEnv, n: nat, p': Serve, sh': Shared)
    requires RunServe(cfg, p, sh, env, n) == (p', sh') && Unrested(cfg, p, sh, env, n)
    requires n > 0 ==> !p'.Resting()
    ensures RunServe(cfg, p, sh, env, n + 1) == ServeStep(cfg, p', env.others(n, sh'), env.replies(n))
    ensures Unrested(cfg, p, sh, env, n + 1)
  {
  }

  datatype Stage = Bind | Loop | Wait | Ended(outcome: Outcome)

  /** Where a turn of `accept` leads: to the stream, to the graceful branch, or round again. */
  function Heard(answer: Option<bool>): ServePc {
    match answer
    case None => LoopAccept
    case Some(got) => if got then LoopReady else LoopGraceful
  }

  /** How the `select!` of the accept loop ends. */
  datatype Turn = GotStream | Parked | LeftLoop

  class ServeTask {
    const cfg: Config
    const handle: Handle
    var stage: Stage
    var outerFirst: bool
    var spot: Spot
    var loopFirst: bool
    var backoff: Option<nat>
    var endFirst: bool
    var grace: Grace
    var deadline: nat
    var holding: bool
    var listened: nat
    var listenErrs: nat
    var makeErrs: nat
    var spawned: nat

    constructor (cfg: Config, handle: Handle)
      ensures this.cfg == cfg && this.handle == handle
      ensures Local() == STARTED
    {
      this.cfg, this.handle := cfg, handle;
      stage, outerFirst, spot, loopFirst, backoff := Bind, true, AtAccept, true, None;
      endFirst, grace, deadline, holding := true, None, 0, false;
      listened, listenErrs, makeErrs, spawned := 0, 0, 0, 0;
    }

    function At(pc: ServePc): Serve
      reads this
    {
      Serve.Serve(pc, outerFirst, spot, loopFirst, backoff, endFirst, grace, deadline, holding,
                  listened, listenErrs, makeErrs, spawned)
    }

    function Head(): ServePc
      reads this
    {
      match stage
      case Bind => Binding
      case Loop => OuterShutdown
      case Wait => if grace.Some? then EndTimer else EndLatch
      case Ended(o) => Returned(o)
    }

    function Local(): Serve
      reads this
    {
      At(Head())
    }

    /** Between two polls, with the result still to come. */
    predicate Suspended()
      reads this
    {
      && !stage.Ended?
      && Local().Resting()
      && (stage != Wait ==> endFirst)
      && (stage == Bind ==> outerFirst && spot == AtAccept)
    }

    /** The poll that began at `p0` and `sh0` has made `n` operations, has not rested, and stands at `pc`. */
    ghost predicate Along(p0: Serve, sh0: Shared, env: ServeEnv, n: nat, pc: ServePc)
      reads this, handle
    {
      && RunServe(cfg, p0, sh0, env, n) == (At(pc), handle.State())
      && Unrested(cfg, p0, sh0, env, n)
    }

    /** One turn of the loop of `accept`: the pause after an error, or the listener. */
    method AcceptTurn(env: ServeEnv, ghost p0: Serve, ghost sh0: Shared, at: nat) returns (answer: Option<bool>)
      requires at > 0 && Along(p0, sh0, env, at, LoopAccept)
      modifies this`backoff, this`spot, this`holding, this`listened, this`listenErrs, handle
      ensures answer == Some(true) ==> spot == AtReady && Along(p0, sh0, env, at + 1, LoopReady)
      ensures answer == Some(true) ==> env.replies(at).listen.ListenOk?
      ensures answer == Some(false) ==> spot == old(spot) && Along(p0, sh0, env, at + 1, LoopGraceful)
      ensures answer == None ==> spot == old(spot) && Along(p0, sh0, env, at + 1, LoopAccept)
      ensures answer == None ==>
        (old(backoff).Some? && backoff.None?) || (old(backoff).None? && env.replies(at).listen.ListenErr?)
    {
      Onward(cfg, p0, sh0, env, at, At(LoopAccept), handle.State());
      handle.Interfere(env.others, at);
      answer := Listen(env.replies(at).listen);
    }

    /** The pause, or else the listener's answer: the body of the loop of `accept`. */
    method Listen(reply: ListenReply) returns (answer: Option<bool>)
      modifies this`backoff, this`spot, this`holding, this`listened, this`listenErrs, handle
      ensures AcceptStep(cfg, old(At(LoopAccept)), old(handle.State()), reply) == (At(Heard(answer)), handle.State())
      ensures answer == Some(true) ==> spot == AtReady && reply.ListenOk?
      ensures answer != Some(true) ==> spot == old(spot)
      ensures answer == None ==> old(backoff).Some? != backoff.Some? && (old(backoff).None? ==> reply.ListenErr?)
    {
      match backoff {
        case Some(until) =>
          if handle.now < until {
            return Some(false);
          }
          backoff := None;
          return None;
        case None =>
          match reply {
            case ListenPending =>
              return Some(false);
            case ListenErr =>
              handle.ReportError(cfg);
              listenErrs, backoff := listenErrs + 1, Some(handle.now + BACKOFF);
              return None;
            case ListenOk =>
              spot, holding, listened := AtReady, true, listened + 1;
              return Some(true);
          }
      }
    }

    /** One poll of `accept`: lines 515-528. From operation `quiet` on the listener has nothing to offer. */
    method PollAccept(env: ServeEnv, ghost p0: Serve, ghost sh0: Shared, at: nat, ghost quiet: nat)
      returns (got: bool, n: nat)
      requires at > 0 && Along(p0, sh0, env, at, LoopAccept)
      requires forall k :: quiet <= k ==> env.replies(k).listen.ListenPending?
      modifies this`backoff, this`spot, this`holding, this`listened, this`listenErrs, handle
      ensures n > at && Along(p0, sh0, env, n, if got then LoopReady else LoopGraceful)
      ensures got ==> spot == AtReady && n <= quiet
      ensures !got ==> spot == old(spot)
    {
      n := at;
      while true
        invariant n >= at && Along(p0, sh0, env, n, LoopAccept) && spot == old(spot)
        decreases if n < quiet then quiet - n else 0, backoff.Some?
      {
        var answer := AcceptTurn(env, p0, sh0, n);
        n := n + 1;
        if answer.Some? {
          return answer.value, n;
        }
      }
    }

    /** The `select!` of lines 375-379. */
    method PollSelect(env: ServeEnv, ghost p0: Serve, ghost sh0: Shared, at: nat, ghost quiet: nat)
      returns (turn: Turn, n: nat)
      requires at > 0 && Along(p0, sh0, env, at, LoopAccept) && spot == AtAccept && stage == Loop
      requires forall k :: quiet <= k ==> env.replies(k).listen.ListenPending?
      modifies this, handle
      ensures stage == Loop && n > at && endFirst == old(endFirst)
      ensures turn == GotStream ==> spot == AtReady && Along(p0, sh0, env, n, LoopReady) && n <= quiet
      ensures turn == Parked ==> Along(p0, sh0, env, n, OuterShutdown) && !outerFirst
      ensures turn == LeftLoop ==> Along(p0, sh0, env, n, EndLoad)
    {
      var got;
      got, n := PollAccept(env, p0, sh0, at, quiet);
      if got {
        return GotStream, n;
      }
      turn := PollGraceful(env, p0, sh0, n);
      n := n + 1;
    }

    method PollGraceful(env: ServeEnv, ghost p0: Serve, ghost sh0: Shared, at: nat) returns (turn: Turn)
      requires at > 0 && Along(p0, sh0, env, at, LoopGraceful) && spot == AtAccept
      modifies this`loopFirst, this`outerFirst, this`spot, handle
      ensures turn != GotStream
      ensures turn == Parked ==> Along(p0, sh0, env, at + 1, OuterShutdown) && !outerFirst
      ensures turn == LeftLoop ==> Along(p0, sh0, env, at + 1, EndLoad)
    {
      Onward(cfg, p0, sh0, env, at, At(LoopGraceful), handle.State());
      handle.Interfere(env.others, at);
      if handle.graceful.Seen(loopFirst) {
        return LeftLoop;
      }
      loopFirst, outerFirst, spot := false, false, AtAccept;
      return Parked;
    }

    /** Lines 381-383. */
    method PollReady(env: ServeEnv, ghost p0: Serve, ghost sh0: Shared, at: nat) returns (parked: bool, n: nat)
      requires at > 0 && Along(p0, sh0, env, at, LoopReady) && stage == Loop
      modifies this, handle
      ensures n == at + 1 && endFirst == old(endFirst)
      ensures parked ==> stage == Loop && Along(p0, sh0, env, n, OuterShutdown) && !outerFirst
      ensures !parked ==> stage in [Loop, Ended(ReadyFailed)]
      ensures !parked && stage == Loop ==> spot == AtMake && Along(p0, sh0, env, n, LoopMake)
      ensures !parked && stage != Loop ==> Along(p0, sh0, env, n, Returned(ReadyFailed))
    {
      Onward(cfg, p0, sh0, env, at, At(LoopReady), handle.State());
      handle.Interfere(env.others, at);
      n := at + 1;
      match env.replies(at).ready {
        case StepPending =>
          outerFirst, spot := false, AtReady;
          return true, n;
        case StepErr =>
          stage := Ended(ReadyFailed);
          return false, n;
        case StepOk =>
          spot := AtMake;
          return false, n;
      }
    }

    /** Lines 386-402. */
    method PollMake(env: ServeEnv, ghost p0: Serve, ghost sh0: Shared, at: nat) returns (parked: bool, n: nat)
      requires at > 0 && Along(p0, sh0, env, at, LoopMake) && stage == Loop
      modifies this, handle
      ensures n == at + 1 && stage == Loop && endFirst == old(endFirst)
      ensures parked ==> Along(p0, sh0, env, n, OuterShutdown) && !outerFirst
      ensures !parked ==> spot == AtAccept && Along(p0, sh0, env, n, LoopAccept)
    {
      Onward(cfg, p0, sh0, env, at, At(LoopMake), handle.State());
      handle.Interfere(env.others, at);
      n := at + 1;
      parked := Make(env.replies(at).make);
    }

    method Make(reply: StepReply) returns (parked: bool)
      modifies this`outerFirst, this`spot, this`makeErrs, this`spawned
      modifies this`holding, this`loopFirst, this`backoff, handle
      ensures MakeStep(cfg, old(At(LoopMake)), old(handle.State()), reply) ==
        (At(if parked then OuterShutdown else LoopAccept), handle.State())
      ensures if parked then !outerFirst else spot == AtAccept
    {
      match reply {
        case StepPending =>
          outerFirst, spot := false, AtMake;
          return true;
        case StepErr =>
          handle.ReportError(cfg);
          makeErrs := makeErrs + 1;
          Restart();
          return false;
        case StepOk =>
          handle.NewWatcher();
          spawned := spawned + 1;
          Restart();
          return false;
      }
    }

    /** The top of the loop: the stream is gone, the futures of the next `select!` are new. */
    method Restart()
      modifies this`holding, this`spot, this`loopFirst, this`backoff
      ensures !holding && spot == AtAccept && loopFirst && backoff == None
    {
      holding, spot, loopFirst, backoff := false, AtAccept, true, None;
    }

    /** `accept_loop_future`: lines 373-479, resumed where it was suspended. */
    method PollLoop(env: ServeEnv, ghost p0: Serve, ghost sh0: Shared, at: nat, ghost quiet: nat)
      returns (parked: bool, n: nat)
      requires at > 0 && stage == Loop
      requires Along(p0, sh0, env, at, Resume(spot))
      requires forall k :: quiet <= k ==> env.replies(k).listen.ListenPending?
      modifies this, handle
      ensures n > at && endFirst == old(endFirst)
      ensures parked ==> stage == Loop && Along(p0, sh0, env, n, OuterShutdown) && !outerFirst
      ensures !parked ==> stage in [Loop, Ended(ReadyFailed)]
      ensures !parked && stage == Loop ==> Along(p0, sh0, env, n, EndLoad)
      ensures !parked && stage != Loop ==> Along(p0, sh0, env, n, Returned(ReadyFailed))
    {
      n := at;
      while true
        invariant n >= at && stage == Loop && endFirst == old(endFirst)
        invariant Along(p0, sh0, env, n, Resume(spot))
        decreases if n < quiet then quiet - n else 0, match spot case AtAccept => 0 case AtReady => 2 case AtMake => 1
      {
        if spot == AtAccept {
          var turn;
          turn, n := PollSelect(env, p0, sh0, n, quiet);
          if turn != GotStream {
            return turn == Parked, n;
          }
        }
        if spot == AtReady {
          parked, n := PollReady(env, p0, sh0, n);
          if parked || stage != Loop {
            return parked, n;
          }
        }
        parked, n := PollMake(env, p0, sh0, n);
        if parked {
          return true, n;
        }
      }
    }

    /** The `select!` of src/handle.rs:115-121: the timer before the latch. */
    method PollWait(env: ServeEnv, ghost p0: Serve, ghost sh0: Shared, at: nat) returns (n: nat)
      requires stage == Wait && Along(p0, sh0, env, at, Head()) && (at > 0 ==> endFirst)
      modifies this, handle
      ensures n > at && Along(p0, sh0, env, n, Head()) && Local().Resting()
      ensures stage in [Wait, Ended(Drained), Ended(OutOfTime)]
    {
      n := at;
      if grace.Some? {
        Onward(cfg, p0, sh0, env, n, At(EndTimer), handle.State());
        handle.Interfere(env.others, n);
        n := n + 1;
        if handle.now >= deadline {
          n := ShutdownNow(env, p0, sh0, n);
          return;
        }
      }
      n := PollConnEnd(env, p0, sh0, n);
    }

    method PollConnEnd(env: ServeEnv, ghost p0: Serve, ghost sh0: Shared, at: nat) returns (n: nat)
      requires stage == Wait && Along(p0, sh0, env, at, EndLatch) && (at > 0 && grace.None? ==> endFirst)
      modifies this, handle
      ensures n > at && Along(p0, sh0, env, n, Head()) && Local().Resting() && stage in [Wait, Ended(Drained)]
    {
      n := at;
      Onward(cfg, p0, sh0, env, n, At(EndLatch), handle.State());
      handle.Interfere(env.others, n);
      n := n + 1;
      if handle.connEnd.Seen(endFirst) {
        stage := Ended(Drained);
      } else {
        endFirst := false;
      }
    }

    /** `self.shutdown()` in the timer's arm. */
    method ShutdownNow(env: ServeEnv, ghost p0: Serve, ghost sh0: Shared, at: nat) returns (n: nat)
      requires at > 0 && stage == Wait && Along(p0, sh0, env, at, EndStore)
      modifies this, handle
      ensures n > at && stage == Ended(OutOfTime) && Along(p0, sh0, env, n, Returned(OutOfTime))
    {
      ghost var p, sh := At(EndStore), handle.State();
      handle.Shutdown(env.others, at);
      n := at + 2;
      stage := Ended(OutOfTime);
      ghost var s1 := env.others(at, sh);
      ghost var s2 := s1.(shutdown := s1.shutdown.Store());
      Onward(cfg, p0, sh0, env, at, p, sh);
      Onward(cfg, p0, sh0, env, at + 1, p.(pc := EndBroadcast), s2);
    }

    /** `wait_connections_end` from its first line. */
    method EnterWait(env: ServeEnv, ghost p0: Serve, ghost sh0: Shared, at: nat) returns (n: nat)
      requires at > 0 && Along(p0, sh0, env, at, EndLoad) && endFirst
      modifies this, handle
      ensures n > at && Along(p0, sh0, env, n, Head()) && Local().Resting()
      ensures stage in [Wait, Ended(Drained), Ended(OutOfTime), Ended(NoConnections)]
    {
      Onward(cfg, p0, sh0, env, at, At(EndLoad), handle.State());
      handle.Interfere(env.others, at);
      n := at + 1;
      if handle.connCount == 0 {
        stage := Ended(NoConnections);
        return;
      }
      n := TakeGrace(env, p0, sh0, n);
    }

    /** The deadline is read, and the `select!` entered. */
    method TakeGrace(env: ServeEnv, ghost p0: Serve, ghost sh0: Shared, at: nat) returns (n: nat)
      requires at > 0 && Along(p0, sh0, env, at, EndLock) && endFirst
      modifies this, handle
      ensures n > at && Along(p0, sh0, env, n, Head()) && Local().Resting()
      ensures stage in [Wait, Ended(Drained), Ended(OutOfTime)]
    {
      n := at;
      Onward(cfg, p0, sh0, env, n, At(EndLock), handle.State());
      handle.Interfere(env.others, n);
      n := n + 1;
      grace := handle.gracefulDur;
      if grace.Some? {
        deadline := handle.now + grace.value;
      }
      stage := Wait;
      n := PollWait(env, p0, sh0, n);
    }

    /**
     One poll of `serve`, from wherever it is suspended. It is the run of `n` operations of
     ServeModel.ServeStep that starts there, and no shorter run has rested.
     */
    method Poll(env: ServeEnv, ghost quiet: nat) returns (n: nat)
      requires Suspended()
      requires forall k :: quiet <= k ==> env.replies(k).listen.ListenPending?
      modifies this, handle
      ensures RunServe(cfg, old(Local()), old(handle.State()), env, n) == (Local(), handle.State())
      ensures ServePollEnds(cfg, old(Local()), old(handle.State()), env, n)
      ensures stage.Ended? || Suspended()
    {
      ghost var p0, sh0 := Local(), handle.State();
      if stage == Wait {
        n := PollWait(env, p0, sh0, 0);
        UnrestedEverywhere(cfg, p0, sh0, env, n);
        return;
      }
      n := 0;
      if stage == Bind {
        Onward(cfg, p0, sh0, env, 0, At(Binding), handle.State());
        handle.Interfere(env.others, 0);
        n := 1;
        match env.replies(0).bind {
          case StepPending =>
            return;
          case StepErr =>
            stage := Ended(BindFailed);
            return;
          case StepOk =>
            stage := Loop;
        }
      }
      n := PollServing(env, p0, sh0, n, quiet);
      UnrestedEverywhere(cfg, p0, sh0, env, n);
    }

    /** The first branch of the `select!` of lines 481-485. */
    method PollShutdown(env: ServeEnv, ghost p0: Serve, ghost sh0: Shared, at: nat)
      requires stage == Loop && Along(p0, sh0, env, at, OuterShutdown) && (at > 0 ==> outerFirst)
      modifies this`stage, handle
      ensures stage in [Loop, Ended(StoppedAtOnce)]
      ensures Along(p0, sh0, env, at + 1, if stage == Loop then Resume(spot) else Head())
    {
      Onward(cfg, p0, sh0, env, at, At(OuterShutdown), handle.State());
      handle.Interfere(env.others, at);
      if handle.shutdown.Seen(outerFirst) {
        stage := Ended(StoppedAtOnce);
      }
    }

    /** Lines 481-500. */
    method PollServing(env: ServeEnv, ghost p0: Serve, ghost sh0: Shared, at: nat, ghost quiet: nat) returns (n: nat)
      requires stage == Loop && Along(p0, sh0, env, at, OuterShutdown) && (at > 0 ==> outerFirst) && endFirst
      requires forall k :: quiet <= k ==> env.replies(k).listen.ListenPending?
      modifies this, handle
      ensures n > at && Along(p0, sh0, env, n, Head()) && Local().Resting()
      ensures stage.Ended? || Suspended()
    {
      PollShutdown(env, p0, sh0, at);
      n := at + 1;
      if stage.Ended? {
        return;
      }
      var parked;
      parked, n := PollLoop(env, p0, sh0, n, quiet);
      if parked || stage.Ended? {
        return;
      }
      n := EnterWait(env, p0, sh0, n);
    }
  }
}
