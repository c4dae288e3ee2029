/** `RustlsConfig` (src/tls_rustls/mod.rs:157-322) and `RustlsAcceptorFuture` (src/tls_rustls/future.rs). */
module TlsRustls {
  import opened Prelude
  import opened TlsLayer

  /** The shared cell: every clone of a config is a reference to the same object. */
  class RustlsConfig {
    var inner: Config

    constructor FromConfig(config: Config)
      ensures inner == config
    {
      inner := config;
    }

    method GetInner() returns (config: Config)
      ensures config == inner
    {
      config := inner;
    }

    method ReloadFromConfig(config: Config)
      modifies this
      ensures inner == config
    {
      inner := config;
    }

    /**
     `reload_from_der`, `reload_from_pem`, `reload_from_pem_file`: a config that fails to build
     leaves the cell as it was.
     */
    method Reload<E>(built: Result<Config, E>) returns (r: Result<(), E>)
      modifies this
      ensures built.Ok? ==> r.Ok? && inner == built.value
      ensures built.Err? ==> r == Err(built.error) && inner == old(inner)
    {
      if built.Err? {
        return Err(built.error);
      }
      inner := built.value;
      return Ok(());
    }
  }

  class RustlsAcceptorFuture {
    var inner: Phase
    var config: RustlsConfig?
    var done: bool
    ghost const timeout: nat
    ghost var history: seq<Reading>

    constructor (config: RustlsConfig, handshakeTimeout: nat)
      ensures Valid() && !done && timeout == handshakeTimeout && history == [] && this.config == config
    {
      this.inner := InnerPhase(handshakeTimeout);
      this.config := config;
      this.done := false;
      this.timeout := handshakeTimeout;
      this.history := [];
    }

    function State(): Layer
      reads this
    {
      Layer(inner, config != null, false)
    }

    /** The future is where polling it through its history has taken it. */
    ghost predicate Valid()
      reads this
    {
      && LayerRun(NewLayer(timeout), history).0 == State()
      && (LayerRun(NewLayer(timeout), history).1.Ready? <==> done)
    }

    /**
     `poll`: by induction over its history it answers what the sequential program answers. The
     config is read from the cell as it is in that instant, after whatever reloads came before.
     */
    method Poll(cx: Context) returns (r: Poll<Outcome>, ghost x: Reading)
      requires Valid() && !done
      modifies this, config
      ensures Valid() && (done <==> r.Ready?)
      ensures x == cx.Read(if old(config) == null then x.config else cx.reload(old(config.inner)))
      ensures (x.inner, x.start, x.handshake, x.now) == (cx.inner, cx.start, cx.handshake, cx.now)
      ensures old(config) != null ==> x.config == cx.reload(old(config.inner))
      ensures history == old(history) + [x] && r == Sequential(timeout, history)
      ensures (State(), r) == LayerPoll(old(State()), x)
      ensures old(config) != null ==> old(config).inner == cx.reload(old(config.inner))
      ensures config == null || config == old(config)
    {
      x := cx.Read(if config == null then 0 else cx.reload(config.inner));
      OneMorePoll(timeout, history, x, State());
      var answer, _ := Step(cx, x);
      r := answer;
      history := history + [x];
      done := r.Ready?;
    }

    /** The loop of `poll`: it goes round twice exactly when the inner future completes, and otherwise once. */
    method Step(cx: Context, ghost x: Reading) returns (r: Poll<Outcome>, rounds: nat)
      requires inner.InnerPhase? <==> config != null
      requires inner.AcceptPhase? ==> inner.service.Some?
      requires x == cx.Read(if config == null then x.config else cx.reload(config.inner))
      modifies this`inner, this`config, config
      ensures (State(), r) == LayerPoll(old(State()), x)
      ensures rounds == if old(inner).InnerPhase? && x.inner.Ready? && x.inner.value.Ok? then 2 else 1
      ensures old(config) != null ==> old(config).inner == cx.reload(old(config.inner))
      ensures config == null || config == old(config)
    {
      rounds := 0;
      while true
        invariant rounds <= 1
        invariant rounds == 0 ==> inner == old(inner) && config == old(config)
        invariant rounds == 0 ==> config != null ==> config.inner == old(config.inner)
        invariant rounds == 1 ==> old(inner).InnerPhase? && x.inner.Ready? && x.inner.value.Ok?
        invariant rounds == 1 ==> config == null && old(config).inner == x.config
        invariant rounds == 1 ==>
          var a := x.inner.value.value;
          inner == AcceptPhase(a.stream, x.config, x.start + old(inner).handshakeTimeout, Some(a.service))
        decreases 1 - rounds
      {
        rounds := rounds + 1;
        match inner {
          case InnerPhase(handshakeTimeout) =>
            config.inner := cx.reload(config.inner);
            match cx.inner {
              case Ready(Ok(accepted)) =>
                var taken := config;
                config := null;
                var serverConfig := taken.GetInner();
                var deadline := cx.start + handshakeTimeout;
                inner := AcceptPhase(accepted.stream, serverConfig, deadline, Some(accepted.service));
              case Ready(Err(e)) =>
                return Ready(Err(e)), rounds;
              case Pending =>
                return Pending, rounds;
            }
          case AcceptPhase(stream, snapshot, deadline, service) =>
            match cx.handshake {
              case Ready(Ok(info)) =>
                inner := AcceptPhase(stream, snapshot, deadline, None);
                return Ready(Ok(Accepted(Tls(stream, snapshot, info), TlsService(service.value, info)))), rounds;
              case Ready(Err(e)) =>
                return Ready(Err(Handshake(e))), rounds;
              case Pending =>
                if cx.now >= deadline {
                  return Ready(Err(TimedOut)), rounds;
                }
                return Pending, rounds;
            }
        }
      }
    }
  }
}
