/**
 The state behind every clone of a `Handle` (src/handle.rs) and its atomic operations.

 Latches are the two-bit latches of Latches. The clock and the count of accept-error
 reports are kept beside the fields of `HandleInner`, because a poll reads or changes them too.
 */
module HandleModel {
  import opened Prelude
  import opened Latches

  /** What the server was built with: is there an accept-error handler, is the first request timed? */
  datatype Config = Config(handler: bool, firstRequest: Option<nat>)

  /** A grace period; `None` is an unlimited one. */
  type Grace = Option<nat>

  /** `graces` is every value ever stored in `graceful_dur`, in the order the mutex was taken. */
  datatype Shared = Shared(
    now: nat,
    connCount: int,
    shutdown: Latch,
    graceful: Latch,
    connEnd: Latch,
    gracefulDur: Grace,
    graces: seq<Grace>,
    reports: nat)
  {
    function SetGrace(d: Grace): Shared {
      this.(gracefulDur := d, graces := graces + [d])
    }

    function Report(cfg: Config): Shared {
      if cfg.handler then this.(reports := reports + 1) else this
    }

    /** How other threads may have left the shared state since: the clock and the latches only advance. */
    predicate Before(later: Shared) {
      && now <= later.now
      && shutdown.Before(later.shutdown)
      && graceful.Before(later.graceful)
      && connEnd.Before(later.connEnd)
    }
  }

  const FRESH := Shared(0, 0, CLOSED, CLOSED, CLOSED, None, [], 0)

  /** What other threads do to the shared state before a task's `k`-th operation. */
  type Others = (nat, Shared) -> Shared

  /** Other threads never take a latch or the clock back. */
  ghost predicate Forward(others: Others) {
    forall k: nat, sh: Shared {:trigger others(k, sh)} :: sh.Before(others(k, sh))
  }

  // ---------------------------------------------------------------- runs of a task

  /** One operation of some task, given its number, the task's own state and the shared state. */
  type Op<!C> = (nat, C, Shared) -> (C, Shared)

  /** The task and the shared state after its operations `at`, ..., `at + n - 1`. */
  function Run<C>(op: Op<C>, c: C, sh: Shared, at: nat, n: nat): (C, Shared) {
    if n == 0 then (c, sh)
    else
      var (c', sh') := Run(op, c, sh, at, n - 1);
      op(at + n - 1, c', sh')
  }

  lemma {:induction false} RunSplits<C>(op: Op<C>, c: C, sh: Shared, at: nat, n: nat, m: nat)
    ensures var (c', sh') := Run(op, c, sh, at, n);
      Run(op, c, sh, at, n + m) == Run(op, c', sh', at + n, m)
  {
    if m > 0 {
      RunSplits(op, c, sh, at, n, m - 1);
    }
  }

  // ---------------------------------------------------------------- Watcher::drop

  /** Where a call of `Watcher::drop` stands. */
  datatype Dropping = Subtract | Check | StoreEnd | BroadcastEnd | Dropped

  /** One atomic operation of `Watcher::drop`. */
  function DropStep(d: Dropping, sh: Shared): (Dropping, Shared) {
    match d
    case Subtract => (if sh.connCount - 1 == 0 then Check else Dropped, sh.(connCount := sh.connCount - 1))
    case Check => (if sh.graceful.stored then StoreEnd else Dropped, sh)
    case StoreEnd => (BroadcastEnd, sh.(connEnd := sh.connEnd.Store()))
    case BroadcastEnd => (Dropped, sh.(connEnd := sh.connEnd.Broadcast()))
    case Dropped => (Dropped, sh)
  }

  /**
   The first `n` operations of a drop, each after whatever other threads did (`at` counts from the
   poll's start).
   */
  function RunDrop(sh: Shared, others: Others, at: nat, n: nat): (Dropping, Shared) {
    if n == 0 then (Subtract, sh)
    else
      var (d, sh') := RunDrop(sh, others, at, n - 1);
      DropStep(d, others(at + n - 1, sh'))
  }

  // ---------------------------------------------------------------- Handle

  /** `HandleInner`. */
  class Handle {
    var now: nat
    var connCount: int
    var shutdown: Latch
    var graceful: Latch
    var connEnd: Latch
    var gracefulDur: Grace
    var graces: seq<Grace>
    var reports: nat

    constructor ()
      ensures State() == FRESH
    {
      now, connCount, reports := 0, 0, 0;
      shutdown, graceful, connEnd := CLOSED, CLOSED, CLOSED;
      gracefulDur, graces := None, [];
    }

    function State(): Shared
      reads this
    {
      Shared(now, connCount, shutdown, graceful, connEnd, gracefulDur, graces, reports)
    }

    /** Let other threads run: the state becomes whatever they leave. */
    method Interfere(others: Others, k: nat)
      modifies this
      ensures State() == others(k, old(State()))
    {
      var sh := others(k, State());
      now, connCount, reports := sh.now, sh.connCount, sh.reports;
      shutdown, graceful, connEnd := sh.shutdown, sh.graceful, sh.connEnd;
      gracefulDur, graces := sh.gracefulDur, sh.graces;
    }

    method ConnectionCount() returns (n: int)
      ensures n == State().connCount
    {
      n := connCount;
    }

    /** `shutdown()`: once it has returned the latch is finished, and nothing else has been touched. */
    method Shutdown(others: Others, at: nat)
      modifies this
      ensures State() == ShutdownEffect(old(State()), others, at)
    {
      Interfere(others, at);
      shutdown := shutdown.Store();
      Interfere(others, at + 1);
      shutdown := shutdown.Broadcast();
    }

    /** `graceful_shutdown(d)`: the duration is in place before the latch can be seen. */
    method GracefulShutdown(d: Grace, others: Others)
      modifies this
      ensures State() == GracefulEffect(old(State()), d, others)
    {
      Interfere(others, 0);
      gracefulDur, graces := d, graces + [d];
      Interfere(others, 1);
      graceful := graceful.Store();
      Interfere(others, 2);
      graceful := graceful.Broadcast();
    }

    /** `Watcher::new`. */
    method NewWatcher()
      modifies this
      ensures State() == old(State()).(connCount := old(connCount) + 1)
    {
      connCount := connCount + 1;
    }

    /** `Watcher::drop`, with other threads running before each of its operations. */
    method DropWatcher(others: Others, at: nat) returns (n: nat)
      modifies this
      ensures n <= 4
      ensures RunDrop(old(State()), others, at, n) == (Dropped, State())
      ensures forall k :: 0 <= k < n ==> RunDrop(old(State()), others, at, k).0 != Dropped
    {
      ghost var sh0 := State();
      assert RunDrop(sh0, others, at, 0) == (Subtract, sh0);
      Interfere(others, at);
      connCount := connCount - 1;
      var count := connCount;
      assert RunDrop(sh0, others, at, 1) == (if count == 0 then Check else Dropped, State());
      if count != 0 {
        return 1;
      }
      Interfere(others, at + 1);
      assert RunDrop(sh0, others, at, 2) == (if graceful.stored then StoreEnd else Dropped, State());
      if !graceful.stored {
        return 2;
      }
      Interfere(others, at + 2);
      connEnd := connEnd.Store();
      assert RunDrop(sh0, others, at, 3) == (BroadcastEnd, State());
      Interfere(others, at + 3);
      connEnd := connEnd.Broadcast();
      assert RunDrop(sh0, others, at, 4) == (Dropped, State());
      return 4;
    }

    method ReportError(cfg: Config)
      modifies this
      ensures State() == old(State()).Report(cfg)
    {
      if cfg.handler {
        reports := reports + 1;
      }
    }
  }

  function ShutdownEffect(sh: Shared, others: Others, at: nat): Shared {
    var s1 := others(at, sh);
    var s2 := others(at + 1, s1.(shutdown := s1.shutdown.Store()));
    s2.(shutdown := s2.shutdown.Broadcast())
  }

  /** The state in which a call of `graceful_shutdown` leaves its latch stored and not yet broadcast. */
  function GracefulStored(sh: Shared, d: Grace, others: Others): Shared {
    var s1 := others(0, sh).SetGrace(d);
    var s2 := others(1, s1);
    s2.(graceful := s2.graceful.Store())
  }

  function GracefulEffect(sh: Shared, d: Grace, others: Others): Shared {
    var s3 := others(2, GracefulStored(sh, d, others));
    s3.(graceful := s3.graceful.Broadcast())
  }

  /** Other threads write grace periods only after those written before, as the mutex lets them. */
  ghost predicate OnlyAppend(others: Others) {
    forall k: nat, sh: Shared {:trigger others(k, sh)} :: sh.graces <= others(k, sh).graces
  }

  /**
   A call that has returned has finished its latch; and the grace period of a `graceful_shutdown` call
   was there when its latch was stored and is there when it returns.
   */
  lemma ReturnedCallsAreFinished(sh: Shared, d: Grace, others: Others, at: nat)
    requires Forward(others)
    ensures ShutdownEffect(sh, others, at).shutdown == Latch(true, true)
    ensures GracefulEffect(sh, d, others).graceful == Latch(true, true)
    ensures GracefulStored(sh, d, others).graceful.stored
    ensures OnlyAppend(others) ==>
      var stored, end := GracefulStored(sh, d, others), GracefulEffect(sh, d, others);
      d in stored.graces && d in end.graces && sh.graces <= stored.graces <= end.graces
  {
    var s1 := others(at, sh);
    var s2 := s1.(shutdown := s1.shutdown.Store());
    assert s2.Before(others(at + 1, s2));
    var g1 := others(0, sh).SetGrace(d);
    var g2 := others(1, g1);
    var g3 := GracefulStored(sh, d, others);
    assert g3.Before(others(2, g3));
    if OnlyAppend(others) {
      assert d == g1.graces[|g1.graces| - 1] == g2.graces[|g1.graces| - 1];
      assert g3.graces <= others(2, g3).graces;
    }
  }

  /** Undisturbed, the call sets the grace period, finishes the latch and touches nothing else. */
  lemma GracefulAlone(sh: Shared, d: Grace, others: Others)
    requires forall k: nat, now: Shared {:trigger others(k, now)} :: others(k, now) == now
    ensures GracefulEffect(sh, d, others) ==
      sh.(gracefulDur := d, graces := sh.graces + [d], graceful := Latch(true, true))
  {
  }

  /**
   The dropper that takes the count to zero after the flag is up always latches `conn_end`, and no
   other dropper touches it, whatever runs in between.
   */
  lemma LastDropLatches(sh: Shared, others: Others, at: nat, n: nat)
    requires Forward(others) && RunDrop(sh, others, at, n).0 == Dropped
    requires others(at, sh).graceful.stored
    ensures others(at, sh).connCount == 1 ==> RunDrop(sh, others, at, n).1.connEnd.finished
    ensures others(at, sh).connCount != 1 ==> RunDrop(sh, others, at, 1).0 == Dropped
    ensures RunDrop(sh, others, at, 1).1 == others(at, sh).(connCount := others(at, sh).connCount - 1)
  {
    assert RunDrop(sh, others, at, 0) == (Subtract, sh);
    var s1 := RunDrop(sh, others, at, 1).1;
    if others(at, sh).connCount == 1 {
      LastDropRun(sh, others, at, n);
    }
  }

  lemma {:induction false} LastDropRun(sh: Shared, others: Others, at: nat, n: nat)
    requires Forward(others)
    requires others(at, sh).graceful.stored && others(at, sh).connCount == 1
    ensures var (d, s) := RunDrop(sh, others, at, n);
      && d == (match n case 0 => Subtract case 1 => Check case 2 => StoreEnd case 3 => BroadcastEnd case _ => Dropped)
      && (n > 0 ==> s.graceful.stored)
      && (n >= 4 ==> s.connEnd.finished)
  {
    if n > 0 {
      LastDropRun(sh, others, at, n - 1);
      var (d, s) := RunDrop(sh, others, at, n - 1);
      assert s.Before(others(at + n - 1, s));
      if n == 1 {
        assert RunDrop(sh, others, at, 0) == (Subtract, sh);
      }
    }
  }
}
