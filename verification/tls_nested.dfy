/**
 TLS acceptors over TLS acceptors, to any depth: `RustlsAcceptor::accept` (src/tls_rustls/mod.rs:134-149)
 puts one future of TlsLayer over the future of its inner acceptor.
 */
module TlsNested {
  import opened Prelude
  import opened TlsLayer

  /** `done`: the future has returned `Ready`; `got`: what the innermost acceptor accepted. */
  datatype Stack =
    | Leaf(done: bool, got: Option<Accepted>)
    | Over(below: Stack, layer: Layer, done: bool)

  /** The future for acceptors with these handshake timeouts, the innermost first. */
  function Build(timeouts: seq<nat>): Stack {
    if timeouts == [] then Leaf(false, None)
    else
      var n := |timeouts| - 1;
      Over(Build(timeouts[..n]), NewLayer(timeouts[n]), false)
  }

  function Height(s: Stack): nat {
    if s.Leaf? then 0 else 1 + Height(s.below)
  }

  /** One poll of the outermost future; `at(k)` is what the layer at height `k` meets. */
  function PollStack(s: Stack, leaf: Poll<Outcome>, at: nat -> Reading): (Stack, Poll<Outcome>) {
    match s
    case Leaf(_, _) =>
      (Leaf(leaf.Ready?, if leaf.Ready? && leaf.value.Ok? then Some(leaf.value.value) else None), leaf)
    case Over(below, layer, _) =>
      if layer.phase.InnerPhase? then
        var (below', inner) := PollStack(below, leaf, at);
        var (layer', r) := LayerPoll(layer, at(Height(s)).(inner := inner));
        (Over(below', layer', r.Ready?), r)
      else
        var (layer', r) := LayerPoll(layer, at(Height(s)));
        (Over(below, layer', r.Ready?), r)
  }

  /** The future and everything under it have accepted. */
  predicate Settled(s: Stack) {
    match s
    case Leaf(done, got) => done && got.Some?
    case Over(below, layer, done) => done && Settled(below)
  }

  /** `a` is what the innermost acceptor accepted, wrapped once by every layer, stream and service alike. */
  predicate Wraps(s: Stack, a: Accepted) {
    match s
    case Leaf(_, got) => got == Some(a)
    case Over(below, _, _) =>
      && a.stream.Tls? && a.service.TlsService?
      && a.service.info == a.stream.info
      && Wraps(below, Accepted(a.stream.inner, a.service.inner))
  }

  /**
   A pending future: above some height every layer waits for the one below, at that height a
   handshake or the leaf is in progress, and everything below it has accepted.
   */
  predicate Live(s: Stack) {
    && !s.done
    && match s
       case Leaf(_, _) => true
       case Over(below, layer, _) =>
         && !layer.panicked
         && match layer.phase
            case InnerPhase(_) => layer.hasConfig && Live(below)
            case AcceptPhase(stream, _, _, service) =>
              !layer.hasConfig && service.Some? && Settled(below) && Wraps(below, Accepted(stream, service.value))
  }

  lemma {:induction false} BuildIsLive(timeouts: seq<nat>)
    ensures Live(Build(timeouts)) && Height(Build(timeouts)) == |timeouts|
  {
    if timeouts != [] {
      BuildIsLive(timeouts[..|timeouts| - 1]);
    }
  }

  /** The poll of a future polls some future that has already returned `Ready`. */
  predicate PollsDone(s: Stack) {
    s.done || (s.Over? && s.layer.phase.InnerPhase? && PollsDone(s.below))
  }

  lemma {:induction false} LiveNeverPanicked(s: Stack, leaf: Poll<Outcome>, at: nat -> Reading)
    requires Live(s)
    ensures !PollsDone(s)
    ensures PollStack(s, leaf, at).0.Over? ==> !PollStack(s, leaf, at).0.layer.panicked
  {
    if s.Over? && s.layer.phase.InnerPhase? {
      LiveNeverPanicked(s.below, leaf, at);
    }
  }

  /**
   One poll of a pending stack polls no finished future and hits no empty `take`; it stays pending
   with handshakes running from the inside out, or accepts the leaf's connection wrapped by every layer.
   */
  lemma {:induction false} StackPolls(s: Stack, leaf: Poll<Outcome>, at: nat -> Reading)
    requires Live(s)
    ensures !PollsDone(s)
    ensures var (s', r) := PollStack(s, leaf, at);
      && Height(s') == Height(s)
      && (r.Pending? ==> Live(s'))
      && (r.Ready? ==> s'.done)
      && (r.Ready? && r.value.Ok? ==> Settled(s') && Wraps(s', r.value.value))
  {
    LiveNeverPanicked(s, leaf, at);
    if s.Over? && s.layer.phase.InnerPhase? {
      StackPolls(s.below, leaf, at);
    }
  }

  // ---------------------------------------------------------------- sequences of polls

  /** A poll at time `t`: what the innermost future answers and what the layer at each height meets. */
  datatype Visit = Visit(t: nat, leaf: Poll<Outcome>, at: nat -> Reading)

  /** The stack and its answer after a sequence of polls; it is not polled again once ready. */
  function StackAfter(s: Stack, visits: seq<Visit>): (Stack, Poll<Outcome>) {
    if visits == [] then (s, Pending)
    else
      var n := |visits| - 1;
      var (s', r) := StackAfter(s, visits[..n]);
      if r.Ready? then (s', r) else PollStack(s', visits[n].leaf, visits[n].at)
  }

  lemma {:induction false} PollKeepsHeight(s: Stack, leaf: Poll<Outcome>, at: nat -> Reading)
    ensures Height(PollStack(s, leaf, at).0) == Height(s)
  {
    if s.Over? && s.layer.phase.InnerPhase? {
      PollKeepsHeight(s.below, leaf, at);
    }
  }

  lemma {:induction false} RunKeepsHeight(s: Stack, visits: seq<Visit>)
    ensures Height(StackAfter(s, visits).0) == Height(s)
    decreases |visits|
  {
    if visits != [] {
      var n := |visits| - 1;
      RunKeepsHeight(s, visits[..n]);
      PollKeepsHeight(StackAfter(s, visits[..n]).0, visits[n].leaf, visits[n].at);
    }
  }

  // ---------------------------------------------------------------- the nested sequential program

  /** `leaf.await`: the answer of the first poll, from `from` on, that finds the innermost future ready. */
  function AwaitLeaf(visits: seq<Visit>, from: nat): Poll<Outcome>
    requires from <= |visits|
    decreases |visits| - from
  {
    if from == |visits| then Pending
    else if visits[from].leaf.Ready? then visits[from].leaf
    else AwaitLeaf(visits, from + 1)
  }

  /**
   What the acceptors say they do, the outermost last: await the acceptor inside, take the config this
   layer finds then, and await its handshake under its own timeout. `visits[..j + 1]` is all that the
   program inside has seen by the `j`-th poll.
   */
  function NestedSequential(timeouts: seq<nat>, visits: seq<Visit>): Poll<Outcome>
    decreases |timeouts|
  {
    if timeouts == [] then AwaitLeaf(visits, 0)
    else
      var n := |timeouts| - 1;
      Sequential(timeouts[n], seq(|visits|, j requires 0 <= j < |visits| =>
        visits[j].at(n + 1).(inner := NestedSequential(timeouts[..n], visits[..j + 1]))))
  }

  lemma {:induction false} AwaitLeafExtends(visits: seq<Visit>, v: Visit, from: nat)
    requires from <= |visits|
    ensures AwaitLeaf(visits + [v], from) ==
      var r := AwaitLeaf(visits, from); if r.Ready? then r else v.leaf
    decreases |visits| - from
  {
    if from < |visits| {
      assert (visits + [v])[from] == visits[from];
      AwaitLeafExtends(visits, v, from + 1);
    } else {
      assert (visits + [v])[from] == v;
      assert AwaitLeaf(visits + [v], from + 1) == Pending;
    }
  }

  lemma {:induction false} LeafAwaits(s: Stack, visits: seq<Visit>)
    requires s.Leaf?
    ensures StackAfter(s, visits).0.Leaf?
    ensures StackAfter(s, visits).1 == AwaitLeaf(visits, 0)
    decreases |visits|
  {
    if visits != [] {
      var n := |visits| - 1;
      LeafAwaits(s, visits[..n]);
      AwaitLeafExtends(visits[..n], visits[n], 0);
      assert visits == visits[..n] + [visits[n]];
    }
  }

  /** What a layer at height `h` over the stack `b` meets: the answers of `b` are those of `b` polled alone. */
  function Readings(b: Stack, h: nat, visits: seq<Visit>): seq<Reading> {
    seq(|visits|, j requires 0 <= j < |visits| => visits[j].at(h).(inner := StackAfter(b, visits[..j + 1]).1))
  }

  lemma ReadingsPrefix(b: Stack, h: nat, visits: seq<Visit>, n: nat)
    requires n <= |visits|
    ensures Readings(b, h, visits)[..n] == Readings(b, h, visits[..n])
  {
    forall j | 0 <= j < n ensures Readings(b, h, visits)[j] == Readings(b, h, visits[..n])[j] {
      assert visits[..n][..j + 1] == visits[..j + 1];
    }
  }

  /**
   A layer over a stack is a layer over what that stack answers when it is polled alone, and the stack
   beneath is where polling it alone takes it.
   */
  lemma {:induction false} OverIsLayer(b: Stack, t: nat, visits: seq<Visit>)
    ensures var (s, r) := StackAfter(Over(b, NewLayer(t), false), visits);
      && s.Over?
      && (s.layer, r) == LayerRun(NewLayer(t), Readings(b, Height(b) + 1, visits))
      && s.below == StackAfter(b, visits).0
      && (s.layer.phase.InnerPhase? ==> s.layer == NewLayer(t))
      && (StackAfter(b, visits).1.Ready? <==> s.layer.phase.AcceptPhase? || r.Ready?)
    decreases |visits|
  {
    if visits != [] {
      var n := |visits| - 1;
      var h := Height(b) + 1;
      OverIsLayer(b, t, visits[..n]);
      ReadingsPrefix(b, h, visits, n);
      RunKeepsHeight(b, visits[..n]);
      assert visits[..n + 1] == visits;
      assert Readings(b, h, visits)[n] == visits[n].at(h).(inner := StackAfter(b, visits).1);
    }
  }

  lemma LayerIsSequential(b: Stack, t: nat, visits: seq<Visit>)
    ensures StackAfter(Over(b, NewLayer(t), false), visits).1 == Sequential(t, Readings(b, Height(b) + 1, visits))
  {
    OverIsLayer(b, t, visits);
    PollsAreSequential(t, Readings(b, Height(b) + 1, visits));
  }

  /**
   For any depth, any polls, answers and reloads: the stack answers what the nested sequential
   program answers, errors and timeouts included.
   */
  lemma {:induction false} NestedIsSequential(timeouts: seq<nat>, visits: seq<Visit>)
    ensures StackAfter(Build(timeouts), visits).1 == NestedSequential(timeouts, visits)
    decreases |timeouts|
  {
    if timeouts == [] {
      LeafAwaits(Build(timeouts), visits);
    } else {
      var n := |timeouts| - 1;
      var b := Build(timeouts[..n]);
      BuildIsLive(timeouts[..n]);
      LayerIsSequential(b, timeouts[n], visits);
      var readings := seq(|visits|, j requires 0 <= j < |visits| =>
        visits[j].at(n + 1).(inner := NestedSequential(timeouts[..n], visits[..j + 1])));
      forall j | 0 <= j < |visits| ensures Readings(b, n + 1, visits)[j] == readings[j] {
        NestedIsSequential(timeouts[..n], visits[..j + 1]);
      }
      assert Readings(b, n + 1, visits) == readings;
    }
  }

  lemma {:induction false} RunFromLive(s: Stack, visits: seq<Visit>)
    requires Live(s)
    ensures var (s', r) := StackAfter(s, visits);
      && (r.Pending? ==> Live(s') && !PollsDone(s'))
      && (r.Ready? && r.value.Ok? ==> Settled(s') && Wraps(s', r.value.value))
    decreases |visits|
  {
    if visits == [] {
      LiveNeverPanicked(s, Pending, (k: nat) => Reading(Pending, 0, 0, Pending, 0));
    } else {
      var n := |visits| - 1;
      RunFromLive(s, visits[..n]);
      var (s', r) := StackAfter(s, visits[..n]);
      if r.Pending? {
        StackPolls(s', visits[n].leaf, visits[n].at);
        var (s'', r') := PollStack(s', visits[n].leaf, visits[n].at);
        if r'.Pending? {
          LiveNeverPanicked(s'', visits[n].leaf, visits[n].at);
        }
      }
    }
  }

  /**
   For any depth and any polls: the answer is that of the nested sequential program; while it is
   pending no completed layer is polled again and every completed handshake has all those below it
   completed; accepted, the innermost connection and service are wrapped once by each layer, in order.
   */
  lemma NestedAccept(timeouts: seq<nat>, visits: seq<Visit>)
    ensures var (s, r) := StackAfter(Build(timeouts), visits);
      && Height(s) == |timeouts|
      && r == NestedSequential(timeouts, visits)
      && (r.Pending? ==> Live(s) && !PollsDone(s))
      && (r.Ready? && r.value.Ok? ==> Settled(s) && Wraps(s, r.value.value))
  {
    BuildIsLive(timeouts);
    RunKeepsHeight(Build(timeouts), visits);
    RunFromLive(Build(timeouts), visits);
    NestedIsSequential(timeouts, visits);
  }

  // ---------------------------------------------------------------- time

  function Sum(timeouts: seq<nat>): nat {
    if timeouts == [] then 0 else Sum(timeouts[..|timeouts| - 1]) + timeouts[|timeouts| - 1]
  }

  /** When whatever is in progress must be over: the leaf, or the running handshake. */
  function Expiry(s: Stack, leafTime: nat): nat {
    match s
    case Leaf(_, _) => leafTime
    case Over(below, layer, _) =>
      match layer.phase
      case InnerPhase(_) => Expiry(below, leafTime)
      case AcceptPhase(_, _, deadline, _) => deadline
  }

  /** When the whole must be over. */
  function Bound(s: Stack, leafTime: nat): nat {
    match s
    case Leaf(_, _) => leafTime
    case Over(below, layer, _) =>
      match layer.phase
      case InnerPhase(timeout) => Bound(below, leafTime) + timeout
      case AcceptPhase(_, _, deadline, _) => deadline
  }

  ghost predicate OnClock(v: Visit, leafTime: nat) {
    && (forall k: nat :: v.at(k).start == v.t && v.at(k).now == v.t)
    && (v.t >= leafTime ==> v.leaf.Ready?)
  }

  lemma {:induction false} ExpiryBeforeBound(s: Stack, leafTime: nat)
    ensures Expiry(s, leafTime) <= Bound(s, leafTime)
  {
    if s.Over? && s.layer.phase.InnerPhase? {
      ExpiryBeforeBound(s.below, leafTime);
    }
  }

  /** A poll no later than the current expiry leaves, if anything, a later expiry and no later bound. */
  lemma {:induction false} PromptPoll(s: Stack, v: Visit, leafTime: nat)
    requires Live(s) && OnClock(v, leafTime) && v.t <= Expiry(s, leafTime)
    ensures var (s', r) := PollStack(s, v.leaf, v.at);
      r.Pending? ==> v.t < Expiry(s', leafTime) && Bound(s', leafTime) <= Bound(s, leafTime)
  {
    if s.Over? && s.layer.phase.InnerPhase? {
      PromptPoll(s.below, v, leafTime);
      ExpiryBeforeBound(s.below, leafTime);
      StackPolls(s.below, v.leaf, v.at);
      assert v.at(Height(s)).start == v.t && v.at(Height(s)).now == v.t;
    } else if s.Over? {
      assert v.at(Height(s)).now == v.t;
    }
  }

  /** As long as the future is pending, no expiry passes unpolled. */
  ghost predicate Prompt(s: Stack, visits: seq<Visit>, leafTime: nat) {
    forall j :: 0 <= j < |visits| ==>
      var (s', r) := StackAfter(s, visits[..j]);
      r.Pending? ==> OnClock(visits[j], leafTime) && visits[j].t <= Expiry(s', leafTime)
  }

  lemma {:induction false} PendingIsBeforeTheBound(s: Stack, visits: seq<Visit>, leafTime: nat)
    requires Live(s) && Prompt(s, visits, leafTime) && StackAfter(s, visits).1.Pending?
    ensures Bound(StackAfter(s, visits).0, leafTime) <= Bound(s, leafTime)
    ensures visits != [] ==> visits[|visits| - 1].t < Bound(s, leafTime)
    decreases |visits|
  {
    if visits != [] {
      var n := |visits| - 1;
      assert forall j :: 0 <= j < n ==> visits[..n][..j] == visits[..j];
      PendingIsBeforeTheBound(s, visits[..n], leafTime);
      RunFromLive(s, visits[..n]);
      PromptPoll(StackAfter(s, visits[..n]).0, visits[n], leafTime);
      ExpiryBeforeBound(StackAfter(s, visits).0, leafTime);
    }
  }

  lemma {:induction false} BoundOfBuild(timeouts: seq<nat>, leafTime: nat)
    ensures Bound(Build(timeouts), leafTime) == leafTime + Sum(timeouts)
  {
    if timeouts != [] {
      BoundOfBuild(timeouts[..|timeouts| - 1], leafTime);
    }
  }

  /**
   If the task is polled at each expiry, a stack of acceptors has resolved by the leaf's time plus
   the sum of the handshake timeouts.
   */
  lemma NestedAcceptResolvesInTime(timeouts: seq<nat>, visits: seq<Visit>, leafTime: nat)
    requires Prompt(Build(timeouts), visits, leafTime) && visits != []
    requires visits[|visits| - 1].t >= leafTime + Sum(timeouts)
    ensures StackAfter(Build(timeouts), visits).1.Ready?
  {
    BuildIsLive(timeouts);
    BoundOfBuild(timeouts, leafTime);
    if StackAfter(Build(timeouts), visits).1.Pending? {
      PendingIsBeforeTheBound(Build(timeouts), visits, leafTime);
    }
  }
}
