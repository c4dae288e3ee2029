/**
 How the bound address is published (src/handle.rs:76-93, src/server.rs:363-371): `serve` writes it
 under the mutex and then opens a latch; any number of callers of `listening()` wait for the latch
 and then read.
 */
module Listening {
  import opened Prelude
  import opened Latches

  /** Where `notify_listening` stands. */
  datatype Publisher = Before | Written | Stored | Over

  datatype Caller<Addr> = Waiting(first: bool) | Released | Got(answer: Option<Addr>)

  datatype Board<Addr> = Board(
    addr: Option<Addr>,
    latch: Latch,
    publisher: Publisher,
    callers: seq<Caller<Addr>>)

  datatype Action = Write | Store | Broadcast | Call | Poll(i: nat) | Read(i: nat)

  predicate Enabled<Addr>(b: Board<Addr>, a: Action) {
    match a
    case Write => b.publisher.Before?
    case Store => b.publisher.Written?
    case Broadcast => b.publisher.Stored?
    case Call => true
    case Poll(i) => i < |b.callers| && b.callers[i].Waiting?
    case Read(i) => i < |b.callers| && b.callers[i].Released?
  }

  /** `value` is what `serve` publishes: the local address, or `None` when binding failed. */
  function Apply<Addr>(b: Board<Addr>, a: Action, value: Option<Addr>): Board<Addr>
    requires Enabled(b, a)
  {
    match a
    case Write => b.(addr := value, publisher := Written)
    case Store => b.(latch := b.latch.Store(), publisher := Stored)
    case Broadcast => b.(latch := b.latch.Broadcast(), publisher := Over)
    case Call => b.(callers := b.callers + [Waiting(true)])
    case Poll(i) =>
      b.(callers := b.callers[i := if b.latch.Seen(b.callers[i].first) then Released else Waiting(false)])
    case Read(i) => b.(callers := b.callers[i := Got(b.addr)])
  }

  predicate ValidRun<Addr>(b: Board<Addr>, run: seq<Action>, value: Option<Addr>)
    decreases |run|
  {
    run == [] || (Enabled(b, run[0]) && ValidRun(Apply(b, run[0], value), run[1..], value))
  }

  function Exec<Addr>(b: Board<Addr>, run: seq<Action>, value: Option<Addr>): Board<Addr>
    requires ValidRun(b, run, value)
    decreases |run|
  {
    if run == [] then b else Exec(Apply(b, run[0], value), run[1..], value)
  }

  function Fresh<Addr>(): Board<Addr> {
    Board(None, CLOSED, Before, [])
  }

  ghost predicate Inv<Addr>(b: Board<Addr>, value: Option<Addr>) {
    && (b.latch.stored <==> b.publisher.Stored? || b.publisher.Over?)
    && (b.latch.finished <==> b.publisher.Over?)
    && (!b.publisher.Before? ==> b.addr == value)
    && forall i :: 0 <= i < |b.callers| ==>
        && (b.callers[i].Released? ==> b.latch.stored)
        && (b.callers[i].Got? ==> b.callers[i].answer == value && b.latch.stored)
  }

  lemma {:induction false} RunInv<Addr>(b: Board<Addr>, run: seq<Action>, value: Option<Addr>)
    requires Inv(b, value) && ValidRun(b, run, value)
    ensures Inv(Exec(b, run, value), value)
    decreases |run|
  {
    if run != [] {
      RunInv(Apply(b, run[0], value), run[1..], value);
    }
  }

  /**
   In any schedule every caller of `listening()` gets the value that `serve` published, and once it is
   published no caller is left waiting by a poll.
   */
  lemma EveryCallerGetsThePublishedAddress<Addr>(run: seq<Action>, value: Option<Addr>, i: nat)
    requires ValidRun(Fresh(), run, value) && i < |Exec(Fresh<Addr>(), run, value).callers|
    ensures var b := Exec(Fresh<Addr>(), run, value);
      && (b.callers[i].Got? ==> b.callers[i].answer == value)
      && (Enabled(b, Read(i)) ==> Apply(b, Read(i), value).callers[i] == Got(value))
      && (b.publisher.Over? && Enabled(b, Poll(i)) ==> Apply(b, Poll(i), value).callers[i].Released?)
  {
    RunInv(Fresh<Addr>(), run, value);
  }

  // ---------------------------------------------------------------- the two methods, under interference

  /** What other threads do before the `k`-th operation of a method. */
  type Gaps<!Addr> = (nat, Board<Addr>) -> Board<Addr>

  function Gap<Addr>(others: Gaps<Addr>, k: nat, b: Board<Addr>): Board<Addr> {
    others(k, b)
  }

  /** Only this `serve` publishes. */
  ghost predicate LeavePublisher<Addr(!new)>(others: Gaps<Addr>) {
    forall k: nat, b: Board<Addr> {:trigger Gap(others, k, b)} :: Gap(others, k, b).publisher == b.publisher
  }

  ghost predicate Spares<Addr>(i: nat, b: Board<Addr>, b': Board<Addr>) {
    i < |b.callers| ==> i < |b'.callers| && b'.callers[i] == b.callers[i]
  }

  /** Only caller `i` makes its own operations. */
  ghost predicate AllSpare<Addr(!new)>(others: Gaps<Addr>, i: nat) {
    forall k: nat, b: Board<Addr> {:trigger Gap(others, k, b)} :: Spares(i, b, Gap(others, k, b))
  }

  /** A call of `notify_listening`: three operations, each after whatever other threads did. */
  ghost function Publish<Addr(!new)>(b: Board<Addr>, value: Option<Addr>, others: Gaps<Addr>): Board<Addr>
    requires b.publisher.Before? && LeavePublisher(others)
  {
    var b1 := Gap(others, 0, b);
    assert b1.publisher.Before?;
    var b2 := Gap(others, 1, Apply(b1, Write, value));
    assert b2.publisher.Written?;
    var b3 := Gap(others, 2, Apply(b2, Store, value));
    assert b3.publisher.Stored?;
    Apply(b3, Broadcast, value)
  }

  /** A poll of `listening()`: the latch and, if it is seen, the value. */
  ghost function PolledOnce<Addr(!new)>(b: Board<Addr>, i: nat, others: Gaps<Addr>): Board<Addr>
    requires i < |b.callers| && b.callers[i].Waiting? && AllSpare(others, i)
  {
    var b1 := Gap(others, 0, b);
    assert Spares(i, b, b1);
    var polled := Apply(b1, Poll(i), None);
    if !polled.callers[i].Released? then polled
    else
      var b2 := Gap(others, 1, polled);
      assert Spares(i, polled, b2);
      Apply(b2, Read(i), None)
  }

  /** Other threads never take the latch back. */
  ghost predicate NeverBack<Addr(!new)>(others: Gaps<Addr>) {
    forall k: nat, b: Board<Addr> {:trigger Gap(others, k, b)} :: b.latch.Before(Gap(others, k, b).latch)
  }

  /** Other threads only make actions of the board, as far as its invariant can tell. */
  ghost predicate KeepInv<Addr(!new)>(others: Gaps<Addr>, value: Option<Addr>) {
    forall k: nat, b: Board<Addr> {:trigger Gap(others, k, b)} :: Inv(b, value) ==> Inv(Gap(others, k, b), value)
  }

  /**
   In between other threads' actions a call publishes `value`, and a poll answers with nothing else. It
   does answer, if it starts when the value is published, and already when the latch is stored if it
   is the caller's first.
   */
  lemma PublishedThenRead<Addr(!new)>(b: Board<Addr>, value: Option<Addr>, others: Gaps<Addr>, i: nat)
    requires Inv(b, value) && KeepInv(others, value)
    ensures b.publisher.Before? && LeavePublisher(others) ==>
      var b' := Publish(b, value, others); Inv(b', value) && b'.addr == value && b'.latch == Latch(true, true)
    ensures i < |b.callers| && b.callers[i].Waiting? && AllSpare(others, i) ==>
      var b' := PolledOnce(b, i, others);
      && Inv(b', value) && i < |b'.callers| && b'.callers[i] in [Got(value), Waiting(false)]
      && (NeverBack(others) && b.latch.Seen(b.callers[i].first) ==> b'.callers[i] == Got(value))
      && (NeverBack(others) && b.publisher.Over? ==> b'.callers[i] == Got(value))
  {
    if b.publisher.Before? && LeavePublisher(others) {
      var b2 := Gap(others, 1, Apply(Gap(others, 0, b), Write, value));
      assert Inv(b2, value);
      assert Inv(Gap(others, 2, Apply(b2, Store, value)), value);
    }
    if i < |b.callers| && b.callers[i].Waiting? && AllSpare(others, i) {
      var b1 := Gap(others, 0, b);
      assert Spares(i, b, b1) && Inv(b1, value);
      var polled := Apply(b1, Poll(i), None);
      assert Inv(polled, value);
      assert b.latch.Valid();
      assert Spares(i, polled, Gap(others, 1, polled)) && Inv(Gap(others, 1, polled), value);
    }
  }

  /** The two fields of `HandleInner` that publish the address, and where the calls in progress stand. */
  class AddressCell<Addr(!new)> {
    var addr: Option<Addr>
    var addrNotify: Latch
    var publisher: Publisher
    var callers: seq<Caller<Addr>>

    constructor ()
      ensures State() == Fresh()
    {
      addr, addrNotify, publisher, callers := None, CLOSED, Before, [];
    }

    function State(): Board<Addr>
      reads this
    {
      Board(addr, addrNotify, publisher, callers)
    }

    method Interfere(others: Gaps<Addr>, k: nat)
      modifies this
      ensures State() == Gap(others, k, old(State()))
    {
      var b := Gap(others, k, State());
      addr, addrNotify, publisher, callers := b.addr, b.latch, b.publisher, b.callers;
    }

    /**
     `notify_listening`, whatever runs around its operations: the address is there before the latch
     can be seen.
     */
    method NotifyListening(value: Option<Addr>, others: Gaps<Addr>)
      requires publisher.Before? && LeavePublisher(others)
      modifies this
      ensures State() == Publish(old(State()), value, others)
    {
      Interfere(others, 0);
      addr := value;
      publisher := Written;
      Interfere(others, 1);
      addrNotify := addrNotify.Store();
      publisher := Stored;
      Interfere(others, 2);
      addrNotify := addrNotify.Broadcast();
      publisher := Over;
    }

    /**
     One poll of `listening()` by caller `i`: the latch, and then in the same poll the value under
     the mutex.
     */
    method PollListening(i: nat, others: Gaps<Addr>) returns (r: Poll<Option<Addr>>)
      requires i < |callers| && callers[i].Waiting? && AllSpare(others, i)
      modifies this
      ensures State() == PolledOnce(old(State()), i, others)
      ensures i < |callers|
      ensures if r.Ready? then callers[i] == Got(r.value) else callers[i] == Waiting(false)
    {
      assert Spares(i, State(), Gap(others, 0, State()));
      Interfere(others, 0);
      if !addrNotify.Seen(callers[i].first) {
        callers := callers[i := Waiting(false)];
        return Pending;
      }
      callers := callers[i := Released];
      assert Spares(i, State(), Gap(others, 1, State()));
      Interfere(others, 1);
      callers := callers[i := Got(addr)];
      return Ready(addr);
    }
  }
}
