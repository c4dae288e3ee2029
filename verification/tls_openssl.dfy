/**
 `OpenSSLAcceptorFuture` (src/tls_openssl/future.rs): the same machine with one more future inside,
 `TlsAccept`, whose stream is taken when it is ready. It answers exactly what the rustls one answers.
 */
module TlsOpenssl {
  import opened Prelude
  import opened TlsLayer

  /** `SslStream` before its handshake: the inner stream and the acceptor's configuration. */
  datatype SslStream = SslStream(stream: Stream, config: Config)

  class TlsAccept {
    var tlsStream: Option<SslStream>

    constructor (stream: SslStream)
      ensures tlsStream == Some(stream)
    {
      tlsStream := Some(stream);
    }

    /** `poll_accept`, and then the stream is taken; it stays when the handshake is pending or fails. */
    method Poll(handshake: Poll<Result<Info, nat>>) returns (r: Poll<Result<(SslStream, Info), IoError>>)
      requires tlsStream.Some?
      modifies this
      ensures match handshake
        case Ready(Ok(info)) => r == Ready(Ok((old(tlsStream).value, info))) && tlsStream == None
        case Ready(Err(e)) => r == Ready(Err(Handshake(e))) && tlsStream == old(tlsStream)
        case Pending => r == Pending && tlsStream == old(tlsStream)
    {
      match handshake {
        case Ready(Ok(info)) =>
          var taken := tlsStream.value;
          tlsStream := None;
          return Ready(Ok((taken, info)));
        case Ready(Err(e)) =>
          return Ready(Err(Handshake(e)));
        case Pending =>
          return Pending;
      }
    }
  }

  /** `OpenSSLConfig`: a shared cell. */
  class OpenSslConfig {
    var acceptor: Config

    constructor (acceptor: Config)
      ensures this.acceptor == acceptor
    {
      this.acceptor := acceptor;
    }
  }

  datatype AcceptFuture =
    | InnerAccepting(handshakeTimeout: nat)
    | TlsAccepting(future: TlsAccept, deadline: nat, service: Option<Service>)

  class OpenSslAcceptorFuture {
    var inner: AcceptFuture
    var config: OpenSslConfig?
    var done: bool
    ghost const timeout: nat
    ghost var history: seq<Reading>

    constructor (config: OpenSslConfig, handshakeTimeout: nat)
      ensures Valid() && !done && timeout == handshakeTimeout && history == [] && this.config == config
    {
      this.inner := InnerAccepting(handshakeTimeout);
      this.config := config;
      this.done := false;
      this.timeout := handshakeTimeout;
      this.history := [];
    }

    function Footprint(): set<object>
      reads this
    {
      {this} + (if inner.TlsAccepting? then {inner.future} else {})
    }

    /** The state of the common machine that this future is in, while it is pending. */
    ghost predicate Is(l: Layer)
      reads this, Footprint()
    {
      match inner
      case InnerAccepting(t) => config != null && l == Layer(InnerPhase(t), true, false)
      case TlsAccepting(future, deadline, service) =>
        && config == null
        && future.tlsStream.Some? && service.Some?
        && var s := future.tlsStream.value;
        l == Layer(AcceptPhase(s.stream, s.config, deadline, service), false, false)
    }

    ghost predicate Valid()
      reads this, Footprint()
    {
      var (l, r) := LayerRun(NewLayer(timeout), history);
      (r.Ready? <==> done) && (!done ==> Is(l))
    }

    /** `poll`, against the same sequential program. */
    method Poll(cx: Context) returns (r: Poll<Outcome>, ghost x: Reading)
      requires Valid() && !done
      modifies Footprint(), config
      ensures Valid() && (done <==> r.Ready?) && fresh(Footprint() - old(Footprint()))
      ensures x == cx.Read(if old(config) == null then x.config else cx.reload(old(config.acceptor)))
      ensures (x.inner, x.start, x.handshake, x.now) == (cx.inner, cx.start, cx.handshake, cx.now)
      ensures old(config) != null ==> x.config == cx.reload(old(config.acceptor))
      ensures history == old(history) + [x] && r == Sequential(timeout, history)
      ensures old(config) != null ==> old(config).acceptor == cx.reload(old(config.acceptor))
      ensures config == null || config == old(config)
    {
      x := cx.Read(if config == null then 0 else cx.reload(config.acceptor));
      ghost var l := LayerRun(NewLayer(timeout), history).0;
      OneMorePoll(timeout, history, x, l);
      var answer, _ := Step(cx, x, l);
      r := answer;
      history := history + [x];
      done := r.Ready?;
    }

    /** The loop of `poll`: it goes round twice exactly when the inner future completes, and otherwise once. */
    method Step(cx: Context, ghost x: Reading, ghost l: Layer) returns (r: Poll<Outcome>, rounds: nat)
      requires Is(l)
      requires x == cx.Read(if config == null then x.config else cx.reload(config.acceptor))
      modifies Footprint(), config
      ensures r == LayerPoll(l, x).1
      ensures rounds == if l.phase.InnerPhase? && x.inner.Ready? && x.inner.value.Ok? then 2 else 1
      ensures r.Pending? ==> Is(LayerPoll(l, x).0)
      ensures fresh(Footprint() - old(Footprint()))
      ensures history == old(history) && done == old(done)
      ensures old(config) != null ==> old(config).acceptor == cx.reload(old(config.acceptor))
      ensures config == null || config == old(config)
    {
      rounds := 0;
      while true
        invariant rounds <= 1
        invariant history == old(history) && done == old(done) && fresh(Footprint() - old(Footprint()))
        invariant rounds == 0 ==> Is(l) && config == old(config)
        invariant rounds == 0 ==> config != null ==> config.acceptor == old(config.acceptor)
        invariant rounds == 1 ==> l.phase.InnerPhase? && x.inner.Ready? && x.inner.value.Ok?
        invariant rounds == 1 ==> config == null && old(config) != null && old(config).acceptor == x.config
        invariant rounds == 1 ==>
          var a := x.inner.value.value;
          Is(Layer(AcceptPhase(a.stream, x.config, x.start + l.phase.handshakeTimeout, Some(a.service)), false, false))
        decreases 1 - rounds
      {
        rounds := rounds + 1;
        match inner {
          case InnerAccepting(handshakeTimeout) =>
            config.acceptor := cx.reload(config.acceptor);
            match cx.inner {
              case Ready(Ok(accepted)) =>
                var taken := config;
                config := null;
                var future := new TlsAccept(SslStream(accepted.stream, taken.acceptor));
                inner := TlsAccepting(future, cx.start + handshakeTimeout, Some(accepted.service));
              case Ready(Err(e)) =>
                return Ready(Err(e)), rounds;
              case Pending =>
                return Pending, rounds;
            }
          case TlsAccepting(future, deadline, service) =>
            var answer := future.Poll(cx.handshake);
            match answer {
              case Ready(Ok((stream, info))) =>
                inner := TlsAccepting(future, deadline, None);
                var accepted := Accepted(Tls(stream.stream, stream.config, info), TlsService(service.value, info));
                return Ready(Ok(accepted)), rounds;
              case Ready(Err(e)) =>
                return Ready(Err(e)), rounds;
              case Pending =>
                if cx.now >= deadline {
                  return Ready(Err(TimedOut)), rounds;
                }
                return Pending, rounds;
            }
        }
      }
    }
  }
}
