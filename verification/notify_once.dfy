/**
 The one-shot latch of src/notify_once.rs, one atomic operation at a time.

 A notifier stores the flag and then broadcasts to the registered waiters; a waiter registers,
 loads the flag, and, if it read false, waits for a broadcast. Any number of notifiers and waiters
 interleave. `Notify` is taken at its documented word: a broadcast wakes every waiter registered
 before it and is forgotten otherwise. Registration takes effect at one instant of lines 25-26.
 */
module NotifyOnceModel {
  import opened Prelude
  import opened Latches

  /** A call of `notified()`: `Looked` exists only when the load comes before the registration. */
  datatype Waiter =
    | Fresh
    | Looked
    | Registered(woken: bool)
    | Waiting(woken: bool)
    | Completed

  /** `halfway` counts the notifiers that are between their two operations. */
  datatype World = World(flag: bool, halfway: nat, broadcasts: nat, waiters: seq<Waiter>) {

    function AsLatch(): Latch {
      Latch.Latch(flag, broadcasts > 0)
    }
  }

  /** The order of the operations on either side; the source has neither reversed. */
  datatype Order = Order(loadFirst: bool, broadcastFirst: bool)

  const SOURCE_ORDER := Order(false, false)

  datatype Action =
    | Arrive
    | Store
    | Broadcast
    | Register(waiter: nat)
    | Load(waiter: nat)
    | Await(waiter: nat)

  const INITIAL := World(false, 0, 0, [])

  predicate Enabled(order: Order, w: World, a: Action) {
    match a
    case Arrive => true
    case Store => order.broadcastFirst ==> w.halfway > 0
    case Broadcast => !order.broadcastFirst ==> w.halfway > 0
    case Register(i) => i < |w.waiters| && w.waiters[i] == (if order.loadFirst then Looked else Fresh)
    case Load(i) => i < |w.waiters| && (if order.loadFirst then w.waiters[i].Fresh? else w.waiters[i].Registered?)
    case Await(i) => i < |w.waiters| && w.waiters[i].Waiting?
  }

  function Wake(w: Waiter): Waiter {
    match w
    case Registered(_) => Registered(true)
    case Waiting(_) => Waiting(true)
    case _ => w
  }

  function WakeAll(ws: seq<Waiter>): (r: seq<Waiter>)
    ensures |r| == |ws|
    ensures forall i :: 0 <= i < |ws| ==> r[i] == Wake(ws[i])
  {
    seq(|ws|, i requires 0 <= i < |ws| => Wake(ws[i]))
  }

  /** One atomic operation. `Await` is one poll of the inner future, the only one that can park. */
  function Apply(order: Order, w: World, a: Action): World
    requires Enabled(order, w, a)
  {
    match a
    case Arrive => w.(waiters := w.waiters + [Fresh])
    case Store => w.(flag := true, halfway := if order.broadcastFirst then w.halfway - 1 else w.halfway + 1)
    case Broadcast =>
      w.(halfway := if order.broadcastFirst then w.halfway + 1 else w.halfway - 1,
         broadcasts := w.broadcasts + 1,
         waiters := WakeAll(w.waiters))
    case Register(i) =>
      w.(waiters := w.waiters[i := if order.loadFirst then Waiting(false) else Registered(false)])
    case Load(i) =>
      var next := if w.flag then Completed
                  else if order.loadFirst then Looked
                  else Waiting(w.waiters[i].woken);
      w.(waiters := w.waiters[i := next])
    case Await(i) =>
      if w.waiters[i].woken then w.(waiters := w.waiters[i := Completed]) else w
  }

  predicate ValidRun(order: Order, w: World, run: seq<Action>)
    decreases |run|
  {
    run == [] || (Enabled(order, w, run[0]) && ValidRun(order, Apply(order, w, run[0]), run[1..]))
  }

  function Exec(order: Order, w: World, run: seq<Action>): World
    requires ValidRun(order, w, run)
    decreases |run|
  {
    if run == [] then w else Exec(order, Apply(order, w, run[0]), run[1..])
  }

  // ---------------------------------------------------------------- the abstract latch

  /** The specification: a one-way latch and, for each waiter, whether it has been released. */
  datatype Spec = Spec(latch: Latch, released: seq<bool>)

  function Abstract(w: World): Spec {
    Spec(w.AsLatch(), seq(|w.waiters|, i requires 0 <= i < |w.waiters| => w.waiters[i].Completed?))
  }

  /**
   The steps of the one-way latch. A waiter may be released once the latch is stored; a poll that
   parks (`Await` that releases nobody) is not a step at all once the latch is finished.
   */
  predicate SpecStep(s: Spec, a: Action, s': Spec) {
    match a
    case Arrive => s' == s.(released := s.released + [false])
    case Store => s' == s.(latch := s.latch.Store())
    case Broadcast => s.latch.stored && s' == s.(latch := s.latch.Broadcast())
    case Register(i) => s' == s
    case Load(i) => Polled(s, i, s.latch.stored, s')
    case Await(i) => Polled(s, i, s.latch.finished, s')
  }

  predicate Polled(s: Spec, i: nat, open: bool, s': Spec) {
    && i < |s.released|
    && !s.released[i]
    && s' == if open then s.(released := s.released[i := true]) else s
  }

  ghost predicate SpecRun(s: Spec, run: seq<Action>, s': Spec)
    decreases |run|
  {
    if run == [] then s == s'
    else exists mid :: SpecStep(s, run[0], mid) && SpecRun(mid, run[1..], s')
  }

  /** What every operation keeps, in the source's order. */
  ghost predicate Inv(w: World) {
    && (w.halfway > 0 || w.broadcasts > 0 ==> w.flag)
    && forall i :: 0 <= i < |w.waiters| ==> WaiterInv(w, w.waiters[i])
  }

  ghost predicate WaiterInv(w: World, v: Waiter) {
    && !v.Looked?
    && (v.Completed? ==> w.flag)
    && (v.Registered? && v.woken ==> w.broadcasts > 0)
    && (v.Waiting? ==> (v.woken <==> w.broadcasts > 0))
  }

  lemma StepRefines(w: World, a: Action)
    requires Inv(w) && Enabled(SOURCE_ORDER, w, a)
    ensures Inv(Apply(SOURCE_ORDER, w, a))
    ensures SpecStep(Abstract(w), a, Abstract(Apply(SOURCE_ORDER, w, a)))
  {
    var w' := Apply(SOURCE_ORDER, w, a);
    match a {
      case Arrive =>
        assert Abstract(w').released == Abstract(w).released + [false];
      case Register(i) =>
        assert Abstract(w').released == Abstract(w).released;
      case Load(i) =>
        assert w.waiters[i].Registered?;
        assert WaiterInv(w, w.waiters[i]);
        if w.flag {
          assert Abstract(w').released == Abstract(w).released[i := true];
        } else {
          assert Abstract(w').released == Abstract(w).released;
        }
      case Await(i) =>
        assert WaiterInv(w, w.waiters[i]);
        if w.waiters[i].woken {
          assert Abstract(w').released == Abstract(w).released[i := true];
        }
      case Store =>
        assert Abstract(w').released == Abstract(w).released;
      case Broadcast =>
        assert Abstract(w').released == Abstract(w).released;
    }
  }

  lemma {:induction false} RunRefines(w: World, run: seq<Action>)
    requires Inv(w) && ValidRun(SOURCE_ORDER, w, run)
    ensures Inv(Exec(SOURCE_ORDER, w, run))
    ensures SpecRun(Abstract(w), run, Abstract(Exec(SOURCE_ORDER, w, run)))
    decreases |run|
  {
    if run != [] {
      StepRefines(w, run[0]);
      RunRefines(Apply(SOURCE_ORDER, w, run[0]), run[1..]);
    }
  }

  /** Every interleaving of any number of notifiers and waiters is a run of the one-way latch. */
  lemma RefinesLatch(run: seq<Action>)
    requires ValidRun(SOURCE_ORDER, INITIAL, run)
    ensures SpecRun(Spec(CLOSED, []), run, Abstract(Exec(SOURCE_ORDER, INITIAL, run)))
  {
    RunRefines(INITIAL, run);
    assert Abstract(INITIAL) == Spec(CLOSED, []);
  }

  /** A waiter whose task sleeps although some call of `notify_waiters` is over. */
  predicate Parked(w: World, i: nat) {
    i < |w.waiters| && w.waiters[i] == Waiting(false) && w.broadcasts > 0 && w.halfway == 0
  }

  /** No waiter completes before a store, and once a call has finished no waiter stays parked. */
  ghost predicate NoLostWakeUp(order: Order, run: seq<Action>)
    requires ValidRun(order, INITIAL, run)
  {
    var w := Exec(order, INITIAL, run);
    && (forall i: nat :: !Parked(w, i))
    && (forall i :: 0 <= i < |w.waiters| && w.waiters[i].Completed? ==> w.flag)
  }

  lemma SourceOrderKeepsWakeUps(run: seq<Action>)
    requires ValidRun(SOURCE_ORDER, INITIAL, run)
    ensures NoLostWakeUp(SOURCE_ORDER, run)
  {
    RunRefines(INITIAL, run);
    var w := Exec(SOURCE_ORDER, INITIAL, run);
    forall i: nat ensures !Parked(w, i) {
      if i < |w.waiters| {
        assert WaiterInv(w, w.waiters[i]);
      }
    }
    forall i | 0 <= i < |w.waiters| && w.waiters[i].Completed? ensures w.flag {
      assert WaiterInv(w, w.waiters[i]);
    }
  }

  /** A run of `order` that leaves a waiter parked for ever. */
  function StuckRun(order: Order): seq<Action> {
    if order.loadFirst then
      [Arrive, Load(0)] + (if order.broadcastFirst then [Broadcast, Store] else [Store, Broadcast]) + [Register(0)]
    else
      [Broadcast, Arrive, Register(0), Load(0), Store]
  }

  lemma StepOnce(order: Order, w: World, a: Action, run: seq<Action>)
    requires Enabled(order, w, a) && ValidRun(order, Apply(order, w, a), run)
    ensures ValidRun(order, w, [a] + run)
    ensures Exec(order, w, [a] + run) == Exec(order, Apply(order, w, a), run)
  {
    assert ([a] + run)[1..] == run;
  }

  lemma ReversedOrderSticks(order: Order)
    requires order != SOURCE_ORDER
    ensures ValidRun(order, INITIAL, StuckRun(order))
    ensures Parked(Exec(order, INITIAL, StuckRun(order)), 0)
  {
    var run := StuckRun(order);
    assert |run| == 5;
    var w1 := Apply(order, INITIAL, run[0]);
    var w2 := Apply(order, w1, run[1]);
    var w3 := Apply(order, w2, run[2]);
    var w4 := Apply(order, w3, run[3]);
    var w5 := Apply(order, w4, run[4]);
    StepOnce(order, w4, run[4], []);
    StepOnce(order, w3, run[3], [run[4]]);
    StepOnce(order, w2, run[2], [run[3]] + [run[4]]);
    StepOnce(order, w1, run[1], [run[2]] + ([run[3]] + [run[4]]));
    StepOnce(order, INITIAL, run[0], [run[1]] + ([run[2]] + ([run[3]] + [run[4]])));
    assert run == [run[0]] + ([run[1]] + ([run[2]] + ([run[3]] + [run[4]])));
  }

  /** The order of the two operations on each side is exactly what rules out a lost wake-up. */
  lemma OrderIsExact(order: Order)
    ensures order == SOURCE_ORDER <==>
      (forall run :: ValidRun(order, INITIAL, run) ==> NoLostWakeUp(order, run))
  {
    if order == SOURCE_ORDER {
      forall run | ValidRun(order, INITIAL, run) ensures NoLostWakeUp(order, run) {
        SourceOrderKeepsWakeUps(run);
      }
    } else {
      ReversedOrderSticks(order);
      assert !NoLostWakeUp(order, StuckRun(order));
    }
  }

  // ---------------------------------------------------------------- what one poll answers

  lemma {:induction false} FlagStays(order: Order, w: World, run: seq<Action>)
    requires ValidRun(order, w, run) && w.flag
    ensures Exec(order, w, run).flag
    decreases |run|
  {
    if run != [] {
      FlagStays(order, Apply(order, w, run[0]), run[1..]);
    }
  }

  /** Whether `a` is an operation of waiter `i`. */
  predicate Of(a: Action, i: nat) {
    (a.Register? || a.Load? || a.Await?) && a.waiter == i
  }

  lemma {:induction false} OthersLeaveWaiter(w: World, run: seq<Action>, i: nat)
    requires Inv(w) && ValidRun(SOURCE_ORDER, w, run) && i < |w.waiters|
    requires forall a :: a in run ==> !Of(a, i)
    ensures var w' := Exec(SOURCE_ORDER, w, run);
      && Inv(w') && i < |w'.waiters|
      && (w.waiters[i].Registered? ==> w'.waiters[i].Registered?)
      && (w.waiters[i].Waiting? ==> w'.waiters[i].Waiting?)
      && (w.waiters[i].Fresh? ==> w'.waiters[i].Fresh?)
    decreases |run|
  {
    if run != [] {
      var a := run[0];
      assert a in run;
      StepRefines(w, a);
      OthersLeaveWaiter(Apply(SOURCE_ORDER, w, a), run[1..], i);
    }
  }

  /** The three operations of a first poll, with whatever other threads do between them. */
  ghost predicate FirstPoll(start: World, i: nat, gap1: seq<Action>, gap2: seq<Action>, loaded: World, end: World) {
    && Inv(start) && i < |start.waiters| && start.waiters[i].Fresh?
    && (forall a :: a in gap1 + gap2 ==> !Of(a, i))
    && var registered := Apply(SOURCE_ORDER, start, Register(i));
    && ValidRun(SOURCE_ORDER, registered, gap1)
    && loaded == Exec(SOURCE_ORDER, registered, gap1)
    && Enabled(SOURCE_ORDER, loaded, Load(i))
    && var after := Apply(SOURCE_ORDER, loaded, Load(i));
    && if after.waiters[i].Completed? then end == after && gap2 == []
       else
         && ValidRun(SOURCE_ORDER, after, gap2)
         && var ready := Exec(SOURCE_ORDER, after, gap2);
         && Enabled(SOURCE_ORDER, ready, Await(i))
         && end == Apply(SOURCE_ORDER, ready, Await(i))
  }

  /**
   A first poll is a read of the flag at one instant of the poll: parking, the flag was down when it
   was loaded; completing, it is up at the end; and it completes whenever it was up at the start.
   */
  lemma FirstPollReadsTheFlag(start: World, i: nat, gap1: seq<Action>, gap2: seq<Action>, loaded: World, end: World)
    requires FirstPoll(start, i, gap1, gap2, loaded, end)
    ensures i < |end.waiters|
    ensures end.waiters[i].Completed? || (end.waiters[i] == Waiting(false) && !loaded.AsLatch().Seen(true))
    ensures end.waiters[i].Completed? ==> end.AsLatch().Seen(true)
    ensures start.AsLatch().Seen(true) ==> end.waiters[i].Completed?
  {
    var registered := Apply(SOURCE_ORDER, start, Register(i));
    StepRefines(start, Register(i));
    forall a | a in gap1 ensures !Of(a, i) { assert a in gap1 + gap2; }
    forall a | a in gap2 ensures !Of(a, i) { assert a in gap1 + gap2; }
    OthersLeaveWaiter(registered, gap1, i);
    StepRefines(loaded, Load(i));
    if start.flag {
      FlagStays(SOURCE_ORDER, registered, gap1);
    }
    var after := Apply(SOURCE_ORDER, loaded, Load(i));
    if !after.waiters[i].Completed? {
      OthersLeaveWaiter(after, gap2, i);
      var ready := Exec(SOURCE_ORDER, after, gap2);
      assert WaiterInv(ready, ready.waiters[i]);
    }
  }

  /** A later poll of a waiter that parked completes exactly when some broadcast is over. */
  lemma LaterPollReadsTheBroadcast(run: seq<Action>, i: nat)
    requires ValidRun(SOURCE_ORDER, INITIAL, run)
    requires Enabled(SOURCE_ORDER, Exec(SOURCE_ORDER, INITIAL, run), Await(i))
    ensures var w := Exec(SOURCE_ORDER, INITIAL, run);
      Apply(SOURCE_ORDER, w, Await(i)).waiters[i].Completed? <==> w.AsLatch().Seen(false)
  {
    RunRefines(INITIAL, run);
    var w := Exec(SOURCE_ORDER, INITIAL, run);
    assert WaiterInv(w, w.waiters[i]);
  }

  // ---------------------------------------------------------------- the class

  /** What other threads do to the world before this thread's `k`-th operation. */
  type Gaps = (nat, World) -> World

  function Gap(others: Gaps, k: nat, w: World): World {
    others(k, w)
  }

  /** Other threads can only wake waiter `i`. */
  predicate Spares(i: nat, w: World, w': World) {
    i < |w.waiters| ==>
      && i < |w'.waiters|
      && (w'.waiters[i] == w.waiters[i] || w'.waiters[i] == Wake(w.waiters[i]))
  }

  ghost predicate AllSpare(others: Gaps, i: nat) {
    forall k: nat, w: World {:trigger Gap(others, k, w)} :: Spares(i, w, Gap(others, k, w))
  }

  /** A first poll up to its load of the flag. */
  ghost function LoadedFirst(w: World, i: nat, others: Gaps): World
    requires i < |w.waiters| && w.waiters[i].Fresh? && AllSpare(others, i)
  {
    var w1 := Gap(others, 0, w);
    assert Spares(i, w, w1);
    var registered := Apply(SOURCE_ORDER, w1, Register(i));
    var w2 := Gap(others, 1, registered);
    assert Spares(i, registered, w2);
    Apply(SOURCE_ORDER, w2, Load(i))
  }

  /** A first poll: register, load and, if the flag was down, look at the inner future once. */
  ghost function PolledFirst(w: World, i: nat, others: Gaps): World
    requires i < |w.waiters| && w.waiters[i].Fresh? && AllSpare(others, i)
  {
    var loaded := LoadedFirst(w, i, others);
    if loaded.waiters[i].Completed? then loaded
    else
      var w3 := Gap(others, 2, loaded);
      assert Spares(i, loaded, w3);
      Apply(SOURCE_ORDER, w3, Await(i))
  }

  /** Other threads keep the invariant and never take the flag down. */
  ghost predicate AllKeep(others: Gaps) {
    forall k: nat, w: World {:trigger Gap(others, k, w)} ::
      Inv(w) ==> Inv(Gap(others, k, w)) && (w.flag ==> Gap(others, k, w).flag)
  }

  /**
   So a first poll answers as a poll of the latch does: it parks or completes; completed, the flag is
   up at the end; parked, no broadcast is over; it completes whenever the flag was up at the start, and
   when a broadcast has come between its load and its look at the inner future.
   */
  lemma PolledFirstReadsTheFlag(w: World, i: nat, others: Gaps)
    requires Inv(w) && i < |w.waiters| && w.waiters[i].Fresh? && AllSpare(others, i) && AllKeep(others)
    ensures var w' := PolledFirst(w, i, others);
      && Inv(w') && i < |w'.waiters|
      && (if w'.waiters[i].Completed? then w'.AsLatch().Seen(true)
          else w'.waiters[i] == Waiting(false) && !w'.AsLatch().finished && !w.AsLatch().Seen(true))
      && (Gap(others, 2, LoadedFirst(w, i, others)).AsLatch().finished ==> w'.waiters[i].Completed?)
  {
    var w1 := Gap(others, 0, w);
    assert Spares(i, w, w1);
    StepRefines(w1, Register(i));
    var registered := Apply(SOURCE_ORDER, w1, Register(i));
    var w2 := Gap(others, 1, registered);
    assert Spares(i, registered, w2);
    StepRefines(w2, Load(i));
    var loaded := Apply(SOURCE_ORDER, w2, Load(i));
    if !loaded.waiters[i].Completed? {
      var w3 := Gap(others, 2, loaded);
      assert Spares(i, loaded, w3);
      StepRefines(w3, Await(i));
      assert WaiterInv(w3, w3.waiters[i]);
    }
  }

  /** `NotifyOnce` itself; `waiters` is the list kept by the inner `Notify`. */
  class NotifyOnce {
    var notified: bool
    var halfway: nat
    var broadcasts: nat
    var waiters: seq<Waiter>

    constructor ()
      ensures State() == INITIAL
    {
      notified, halfway, broadcasts, waiters := false, 0, 0, [];
    }

    function State(): World
      reads this
    {
      World.World(notified, halfway, broadcasts, waiters)
    }

    method Interfere(others: Gaps, k: nat)
      modifies this
      ensures State() == Gap(others, k, old(State()))
    {
      var w := Gap(others, k, State());
      notified, halfway, broadcasts, waiters := w.flag, w.halfway, w.broadcasts, w.waiters;
    }

    /** The two operations of `notify_waiters`, in the source's order, whatever runs around them. */
    method NotifyWaiters(others: Gaps)
      requires forall w: World :: w.halfway > 0 ==> Gap(others, 1, w).halfway > 0
      modifies this
      ensures var stored := Apply(SOURCE_ORDER, Gap(others, 0, old(State())), Store);
        State() == Apply(SOURCE_ORDER, Gap(others, 1, stored), Broadcast)
      ensures State().AsLatch().finished
    {
      Interfere(others, 0);
      notified := true;
      halfway := halfway + 1;
      Interfere(others, 1);
      waiters := WakeAll(waiters);
      halfway := halfway - 1;
      broadcasts := broadcasts + 1;
    }

    method IsNotified() returns (r: bool)
      ensures r == State().AsLatch().stored
    {
      r := notified;
    }

    /** The first poll of `notified()`; the answer is `Ready` when the waiter has completed. */
    method PollFirst(i: nat, others: Gaps) returns (r: Poll<()>)
      requires i < |waiters| && waiters[i] == Fresh
      requires AllSpare(others, i)
      modifies this
      ensures State() == PolledFirst(old(State()), i, others)
      ensures i < |waiters| && (r.Ready? <==> waiters[i].Completed?)
    {
      Interfere(others, 0);
      waiters := waiters[i := Registered(false)];
      Interfere(others, 1);
      if notified {
        waiters := waiters[i := Completed];
        return Ready(());
      }
      waiters := waiters[i := Waiting(waiters[i].woken)];
      Interfere(others, 2);
      r := PollAgain(i);
    }

    /** Every later poll, and the tail of the first: only the inner `Notified` is looked at. */
    method PollAgain(i: nat) returns (r: Poll<()>)
      requires i < |waiters| && waiters[i].Waiting?
      modifies this
      ensures State() == Apply(SOURCE_ORDER, old(State()), Await(i))
      ensures i < |waiters| && (r.Ready? <==> waiters[i].Completed?)
    {
      if waiters[i].woken {
        waiters := waiters[i := Completed];
        return Ready(());
      }
      return Pending;
    }
  }
}
