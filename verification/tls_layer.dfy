/**
 One TLS acceptor future over an inner acceptor future, as poll state machine and as the sequential
 program it stands for: await the inner future, take the current config, await the handshake under a
 timeout that starts when the inner future completed.
 */
module TlsLayer {
  import opened Prelude

  /** A `ServerConfig`, by identity. */
  type Config = nat

  /** What a handshake negotiated: `TlsInfo`. */
  type Info = nat

  datatype Stream = Raw(id: nat) | Tls(inner: Stream, config: Config, info: Info)

  datatype Service = App(id: nat) | TlsService(inner: Service, info: Info)

  datatype Accepted = Accepted(stream: Stream, service: Service)

  datatype IoError = Inner(code: nat) | Handshake(code: nat) | TimedOut

  type Outcome = Result<Accepted, IoError>

  /** `AcceptFuture`: before and after the inner future has completed. */
  datatype Phase =
    | InnerPhase(handshakeTimeout: nat)
    | AcceptPhase(stream: Stream, snapshot: Config, deadline: nat, service: Option<Service>)

  /** `hasConfig`: the config has not been taken. `panicked`: a `take().expect` has found nothing. */
  datatype Layer = Layer(phase: Phase, hasConfig: bool, panicked: bool)

  function NewLayer(timeout: nat): Layer {
    Layer(InnerPhase(timeout), true, false)
  }

  /**
   What one poll meets: the inner future's answer, the clock and the shared config at the moment the
   inner future completes, the handshake's answer, and the clock when the timer is looked at.
   */
  datatype Reading = Reading(
    inner: Poll<Outcome>,
    start: nat,
    config: Config,
    handshake: Poll<Result<Info, nat>>,
    now: nat)

  /**
   What one poll meets apart from the config: see Reading. `reload` is what other threads do to
   the shared cell while the inner future is polled.
   */
  datatype Context = Context(
    inner: Poll<Outcome>,
    start: nat,
    reload: Config -> Config,
    handshake: Poll<Result<Info, nat>>,
    now: nat)
  {
    /** What the poll reads when the shared cell holds `cell` as the config is taken. */
    function Read(cell: Config): Reading {
      Reading(inner, start, cell, handshake, now)
    }
  }

  /** One poll. */
  function LayerPoll(l: Layer, x: Reading): (Layer, Poll<Outcome>) {
    match l.phase
    case AcceptPhase(_, _, _, _) => HandshakePoll(l, x)
    case InnerPhase(timeout) =>
      match x.inner
      case Pending => (l, Pending)
      case Ready(Err(e)) => (l, Ready(Err(e)))
      case Ready(Ok(a)) =>
        if !l.hasConfig then (l.(panicked := true), Pending)
        else
          HandshakePoll(
            Layer(AcceptPhase(a.stream, x.config, x.start + timeout, Some(a.service)), false, l.panicked), x)
  }

  /** `Timeout` polls the handshake before its timer; a finished handshake takes the service. */
  function HandshakePoll(l: Layer, x: Reading): (Layer, Poll<Outcome>)
    requires l.phase.AcceptPhase?
  {
    var p := l.phase;
    match x.handshake
    case Ready(Ok(info)) =>
      (match p.service
       case Some(service) =>
         (l.(phase := p.(service := None)),
          Ready(Ok(Accepted(Tls(p.stream, p.snapshot, info), TlsService(service, info)))))
       case None => (l.(panicked := true), Pending))
    case Ready(Err(e)) => (l, Ready(Err(Handshake(e))))
    case Pending => (l, if x.now >= p.deadline then Ready(Err(TimedOut)) else Pending)
  }

  /** The answer to a sequence of polls; a future that is ready is not polled again. */
  function LayerRun(l: Layer, xs: seq<Reading>): (Layer, Poll<Outcome>) {
    if xs == [] then (l, Pending)
    else
      var (l', r) := LayerRun(l, xs[..|xs| - 1]);
      if r.Ready? then (l', r) else LayerPoll(l', xs[|xs| - 1])
  }

  // ---------------------------------------------------------------- the sequential program

  /** `inner.await`: the first poll, from `from` on, that finds the inner future ready. */
  function AwaitInner(xs: seq<Reading>, from: nat): (r: Option<nat>)
    requires from <= |xs|
    ensures r.Some? ==> from <= r.value < |xs| && xs[r.value].inner.Ready?
    ensures r.Some? ==> forall k :: from <= k < r.value ==> xs[k].inner.Pending?
    ensures r.None? ==> forall k :: from <= k < |xs| ==> xs[k].inner.Pending?
    decreases |xs| - from
  {
    if from == |xs| then None
    else if xs[from].inner.Ready? then Some(from)
    else AwaitInner(xs, from + 1)
  }

  /** `timeout(.., handshake).await` with a fixed stream, service, config and deadline. */
  function AwaitHandshake(a: Accepted, config: Config, deadline: nat, xs: seq<Reading>, from: nat): Poll<Outcome>
    requires from <= |xs|
    decreases |xs| - from
  {
    if from == |xs| then Pending
    else match xs[from].handshake
      case Ready(Ok(info)) => Ready(Ok(Accepted(Tls(a.stream, config, info), TlsService(a.service, info))))
      case Ready(Err(e)) => Ready(Err(Handshake(e)))
      case Pending =>
        if xs[from].now >= deadline then Ready(Err(TimedOut))
        else AwaitHandshake(a, config, deadline, xs, from + 1)
  }

  /** The whole program. */
  function Sequential(timeout: nat, xs: seq<Reading>): Poll<Outcome> {
    match AwaitInner(xs, 0)
    case None => Pending
    case Some(i) =>
      match xs[i].inner.value
      case Err(e) => Ready(Err(e))
      case Ok(a) => AwaitHandshake(a, xs[i].config, xs[i].start + timeout, xs, i)
  }

  // ---------------------------------------------------------------- they agree

  lemma {:induction false} AwaitInnerExtends(xs: seq<Reading>, x: Reading, from: nat)
    requires from <= |xs|
    ensures AwaitInner(xs + [x], from) ==
      match AwaitInner(xs, from)
      case Some(i) => Some(i)
      case None => if x.inner.Ready? then Some(|xs|) else None
    decreases |xs| - from
  {
    if from < |xs| {
      assert (xs + [x])[from] == xs[from];
      AwaitInnerExtends(xs, x, from + 1);
    } else {
      assert (xs + [x])[from] == x;
      assert AwaitInner(xs + [x], from + 1) == None;
    }
  }

  lemma {:induction false} AwaitHandshakeExtends(
      a: Accepted, config: Config, deadline: nat, xs: seq<Reading>, x: Reading, from: nat)
    requires from <= |xs|
    ensures AwaitHandshake(a, config, deadline, xs + [x], from) ==
      var r := AwaitHandshake(a, config, deadline, xs, from);
      if r.Ready? then r else AwaitHandshake(a, config, deadline, [x], 0)
    decreases |xs| - from
  {
    if from < |xs| {
      assert (xs + [x])[from] == xs[from];
      AwaitHandshakeExtends(a, config, deadline, xs, x, from + 1);
    } else {
      assert (xs + [x])[from] == x;
      assert AwaitHandshake(a, config, deadline, xs + [x], from + 1) == Pending;
      assert AwaitHandshake(a, config, deadline, [x], 1) == Pending;
    }
  }

  /** Where the state machine is after polls that were all pending. */
  predicate Corresponds(timeout: nat, xs: seq<Reading>, l: Layer) {
    match AwaitInner(xs, 0)
    case None => l == NewLayer(timeout)
    case Some(i) =>
      && xs[i].inner.value.Ok?
      && var a := xs[i].inner.value.value;
      l == Layer(AcceptPhase(a.stream, xs[i].config, xs[i].start + timeout, Some(a.service)), false, false)
  }

  lemma {:induction false} RunCorresponds(timeout: nat, xs: seq<Reading>)
    ensures var (l, r) := LayerRun(NewLayer(timeout), xs);
      r == Sequential(timeout, xs) && !l.panicked && (r.Pending? ==> Corresponds(timeout, xs, l))
    decreases |xs|
  {
    if xs != [] {
      var n := |xs| - 1;
      var before, x := xs[..n], xs[n];
      assert xs == before + [x];
      RunCorresponds(timeout, before);
      AwaitInnerExtends(before, x, 0);
      var (l, r) := LayerRun(NewLayer(timeout), before);
      match AwaitInner(before, 0) {
        case Some(i) =>
          assert xs[i] == before[i];
          if before[i].inner.value.Ok? {
            var a := before[i].inner.value.value;
            AwaitHandshakeExtends(a, before[i].config, before[i].start + timeout, before, x, i);
            assert AwaitHandshake(a, before[i].config, before[i].start + timeout, [x], 1) == Pending;
          }
        case None =>
          if x.inner.Ready? && x.inner.value.Ok? {
            assert xs[n] == x;
            assert AwaitHandshake(x.inner.value.value, x.config, x.start + timeout, xs, n + 1) == Pending;
          }
      }
    }
  }

  /**
   For every sequence of polls and answers, polling gives what the sequential program gives, and
   every `take().expect` succeeds.
   */
  lemma PollsAreSequential(timeout: nat, xs: seq<Reading>)
    ensures LayerRun(NewLayer(timeout), xs).1 == Sequential(timeout, xs)
    ensures !LayerRun(NewLayer(timeout), xs).0.panicked
  {
    RunCorresponds(timeout, xs);
  }

  /** One more poll of a pending future. */
  lemma OneMorePoll(timeout: nat, xs: seq<Reading>, x: Reading, l: Layer)
    requires LayerRun(NewLayer(timeout), xs) == (l, Pending)
    ensures LayerRun(NewLayer(timeout), xs + [x]) == LayerPoll(l, x)
    ensures LayerPoll(l, x).1 == Sequential(timeout, xs + [x])
    ensures (l.phase.InnerPhase? <==> l.hasConfig) && (l.phase.AcceptPhase? ==> l.phase.service.Some?)
  {
    assert (xs + [x])[..|xs|] == xs;
    RunCorresponds(timeout, xs);
    RunCorresponds(timeout, xs + [x]);
  }

  /**
   An accepted connection has exactly one more layer, over what the inner future accepted, with the
   config current when it did.
   */
  lemma {:induction false} HandshakeWraps(a: Accepted, config: Config, deadline: nat, xs: seq<Reading>, from: nat)
    requires from <= |xs|
    requires var r := AwaitHandshake(a, config, deadline, xs, from); r.Ready? && r.value.Ok?
    ensures var b := AwaitHandshake(a, config, deadline, xs, from).value.value;
      && b.stream.Tls? && b.stream.inner == a.stream && b.stream.config == config
      && b.service.TlsService? && b.service.inner == a.service && b.service.info == b.stream.info
    decreases |xs| - from
  {
    if xs[from].handshake.Pending? {
      HandshakeWraps(a, config, deadline, xs, from + 1);
    }
  }

  predicate FirstDue(deadline: nat, xs: seq<Reading>, from: nat, k: nat)
    requires from <= k < |xs|
  {
    && xs[k].now >= deadline
    && (forall j :: from <= j <= k ==> xs[j].handshake.Pending?)
    && (forall j :: from <= j < k ==> xs[j].now < deadline)
  }

  /** A handshake that times out was pending at every poll since it started, and was due. */
  lemma {:induction false} TimesOutOnlyWhenDue(a: Accepted, config: Config, deadline: nat, xs: seq<Reading>, from: nat)
    requires from <= |xs|
    requires AwaitHandshake(a, config, deadline, xs, from) == Ready(Err(TimedOut))
    ensures exists k :: from <= k < |xs| && FirstDue(deadline, xs, from, k)
    decreases |xs| - from
  {
    if xs[from].now >= deadline {
      assert FirstDue(deadline, xs, from, from);
    } else {
      TimesOutOnlyWhenDue(a, config, deadline, xs, from + 1);
      var k :| from + 1 <= k < |xs| && FirstDue(deadline, xs, from + 1, k);
      assert FirstDue(deadline, xs, from, k);
    }
  }

  // ---------------------------------------------------------------- what the program answers

  /** The inner future is first found ready at poll `i`. */
  predicate InnerAt(xs: seq<Reading>, i: nat) {
    i < |xs| && xs[i].inner.Ready? && forall j :: 0 <= j < i ==> xs[j].inner.Pending?
  }

  /** The handshake is over at poll `k`: it is ready, or its time has run out. */
  predicate OverAt(xs: seq<Reading>, deadline: nat, k: nat)
    requires k < |xs|
  {
    xs[k].handshake.Ready? || deadline <= xs[k].now
  }

  /** A handshake polled from `i` on is first over at poll `k`, or never if `k` is their number. */
  predicate DecidedAt(xs: seq<Reading>, deadline: nat, i: nat, k: nat) {
    && i <= k <= |xs|
    && (forall j :: i <= j < k ==> !OverAt(xs, deadline, j))
    && (k < |xs| ==> OverAt(xs, deadline, k))
  }

  /** What a handshake over the accepted `a` answers at the poll where it is over. */
  function AnswerAt(a: Accepted, config: Config, x: Reading): Outcome {
    match x.handshake
    case Ready(Ok(info)) => Ok(Accepted(Tls(a.stream, config, info), TlsService(a.service, info)))
    case Ready(Err(e)) => Err(Handshake(e))
    case Pending => Err(TimedOut)
  }

  lemma {:induction false} AwaitHandshakeAnswers(
      a: Accepted, config: Config, deadline: nat, xs: seq<Reading>, from: nat, k: nat)
    requires DecidedAt(xs, deadline, from, k)
    ensures AwaitHandshake(a, config, deadline, xs, from) ==
      if k < |xs| then Ready(AnswerAt(a, config, xs[k])) else Pending
    decreases k - from
  {
    if from < k {
      assert !OverAt(xs, deadline, from);
      AwaitHandshakeAnswers(a, config, deadline, xs, from + 1, k);
    }
  }

  /**
   The answer, by the polls that decide it. Nothing before the inner future is ready; then its error; or
   what the handshake answers at the first poll, that one included, at which it is ready or the time
   that started there has run out, with the config read there, and nothing before that.
   */
  lemma SequentialAnswers(timeout: nat, xs: seq<Reading>, i: nat, k: nat)
    ensures (forall j :: 0 <= j < |xs| ==> xs[j].inner.Pending?) ==> Sequential(timeout, xs) == Pending
    ensures InnerAt(xs, i) && xs[i].inner.value.Err? ==>
      Sequential(timeout, xs) == Ready(Err(xs[i].inner.value.error))
    ensures InnerAt(xs, i) && xs[i].inner.value.Ok? && DecidedAt(xs, xs[i].start + timeout, i, k) ==>
      Sequential(timeout, xs) ==
        if k == |xs| then Pending else Ready(AnswerAt(xs[i].inner.value.value, xs[i].config, xs[k]))
  {
    if InnerAt(xs, i) && xs[i].inner.value.Ok? && DecidedAt(xs, xs[i].start + timeout, i, k) {
      AwaitHandshakeAnswers(xs[i].inner.value.value, xs[i].config, xs[i].start + timeout, xs, i, k);
    }
  }
}
