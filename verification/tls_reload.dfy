/** Hot reload: any number of handshakes and reloads over one shared config, in any order. */
module TlsReload {
  import opened Prelude
  import opened TlsLayer

  /** `took`: how many configs had been stored when the future took its own. */
  datatype Accept = Accept(layer: Layer, answer: Poll<Outcome>, took: Option<nat>)

  /** `stored` is every config the cell has held; the last is the current one. */
  datatype World = World(stored: seq<Config>, accepts: seq<Accept>)

  /** A failed reload is a `Reload` whose config could not be built. */
  datatype Action =
    | Reload(built: Result<Config, nat>)
    | Begin(timeout: nat)
    | PollAccept(i: nat, reading: Reading)

  function Current(w: World): Config
    requires w.stored != []
  {
    w.stored[|w.stored| - 1]
  }

  /** A poll reads the config that is current, and only a pending future is polled. */
  predicate Enabled(w: World, a: Action) {
    w.stored != [] &&
    match a
    case PollAccept(i, x) => i < |w.accepts| && w.accepts[i].answer.Pending? && x.config == Current(w)
    case _ => true
  }

  function Apply(w: World, a: Action): World
    requires Enabled(w, a)
  {
    match a
    case Reload(Ok(c)) => w.(stored := w.stored + [c])
    case Reload(Err(_)) => w
    case Begin(t) => w.(accepts := w.accepts + [Accept(NewLayer(t), Pending, None)])
    case PollAccept(i, x) =>
      var f := w.accepts[i];
      var (layer, answer) := LayerPoll(f.layer, x);
      var took := if f.layer.hasConfig && !layer.hasConfig then Some(|w.stored|) else f.took;
      w.(accepts := w.accepts[i := Accept(layer, answer, took)])
  }

  predicate ValidRun(w: World, run: seq<Action>)
    decreases |run|
  {
    run == [] || (Enabled(w, run[0]) && ValidRun(Apply(w, run[0]), run[1..]))
  }

  function Exec(w: World, run: seq<Action>): World
    requires ValidRun(w, run)
    decreases |run|
  {
    if run == [] then w else Exec(Apply(w, run[0]), run[1..])
  }

  /** A handshake, running or over, uses the config that was current when it took one. */
  predicate UsesItsConfig(stored: seq<Config>, f: Accept) {
    && !f.layer.panicked
    && (f.layer.hasConfig <==> f.took.None?)
    && (f.took.Some? ==> 0 < f.took.value <= |stored|)
    && (f.layer.phase.InnerPhase? <==> f.took.None?)
    && (f.layer.phase.AcceptPhase? ==>
         && f.layer.phase.snapshot == stored[f.took.value - 1]
         && (f.answer.Pending? ==> f.layer.phase.service.Some?))
    && (f.answer.Ready? && f.answer.value.Ok? ==>
         && f.took.Some?
         && f.answer.value.value.stream.Tls?
         && f.answer.value.value.stream.config == stored[f.took.value - 1])
  }

  predicate Inv(w: World) {
    w.stored != [] && forall i :: 0 <= i < |w.accepts| ==> UsesItsConfig(w.stored, w.accepts[i])
  }

  /** Two stages of one handshake: only the service may have been taken in between. */
  predicate SameHandshake(p: Phase, p': Phase) {
    && p.AcceptPhase? && p'.AcceptPhase?
    && p'.stream == p.stream && p'.snapshot == p.snapshot && p'.deadline == p.deadline
  }

  /** What a run may do to a future: once it has taken its config, nothing but let its handshake go on. */
  predicate Keeps(f: Accept, f': Accept) {
    && (f.took.Some? ==> f'.took == f.took && SameHandshake(f.layer.phase, f'.layer.phase))
    && (f.answer.Ready? ==> f' == f)
  }

  lemma StepKeeps(w: World, a: Action)
    requires Inv(w) && Enabled(w, a)
    ensures var w' := Apply(w, a);
      && Inv(w')
      && w.stored <= w'.stored
      && (a.Reload? && a.built.Err? ==> w' == w)
      && |w.accepts| <= |w'.accepts|
      && (forall i :: 0 <= i < |w.accepts| ==> Keeps(w.accepts[i], w'.accepts[i]))
      && (a.PollAccept? && w'.accepts[a.i].took != w.accepts[a.i].took ==>
           w'.accepts[a.i].layer.phase.snapshot == Current(w))
  {
    var w' := Apply(w, a);
    forall i | 0 <= i < |w'.accepts| ensures UsesItsConfig(w'.stored, w'.accepts[i]) {
      if i < |w.accepts| {
        assert UsesItsConfig(w.stored, w.accepts[i]);
      }
    }
  }

  lemma {:induction false} RunKeeps(w: World, run: seq<Action>)
    requires Inv(w) && ValidRun(w, run)
    ensures var w' := Exec(w, run);
      && Inv(w')
      && w.stored <= w'.stored
      && |w.accepts| <= |w'.accepts|
      && forall i :: 0 <= i < |w.accepts| ==> Keeps(w.accepts[i], w'.accepts[i])
    decreases |run|
  {
    if run != [] {
      StepKeeps(w, run[0]);
      RunKeeps(Apply(w, run[0]), run[1..]);
    }
  }

  /**
   In any interleaving of reloads and handshakes: each handshake uses exactly the config that was
   current when its inner future completed, whatever is stored later; an accepted stream carries it;
   and a failed reload changes nothing.
   */
  lemma ReloadIsolation(first: Config, before: seq<Action>, run: seq<Action>, i: nat)
    requires var w0 := World([first], []);
      ValidRun(w0, before) && ValidRun(Exec(w0, before), run) && i < |Exec(w0, before).accepts|
    ensures var w := Exec(World([first], []), before);
      var w' := Exec(w, run);
      && i < |w'.accepts|
      && UsesItsConfig(w'.stored, w'.accepts[i])
      && (w.accepts[i].took.Some? ==>
           && w'.accepts[i].took == w.accepts[i].took
           && SameHandshake(w.accepts[i].layer.phase, w'.accepts[i].layer.phase))
  {
    RunKeeps(World([first], []), before);
    var w := Exec(World([first], []), before);
    RunKeeps(w, run);
    assert Keeps(w.accepts[i], Exec(w, run).accepts[i]);
  }

  /** The configs that a run's reloads have built, in order. */
  function Built(run: seq<Action>): seq<Config> {
    if run == [] then []
    else (if run[0].Reload? && run[0].built.Ok? then [run[0].built.value] else []) + Built(run[1..])
  }

  /** The cell has held its first config and then each that a reload has built, and nothing else; the last is in use. */
  lemma {:induction false} StoredAreTheReloads(w: World, run: seq<Action>)
    requires w.stored != [] && ValidRun(w, run)
    ensures Exec(w, run).stored == w.stored + Built(run)
    decreases |run|
  {
    if run != [] {
      StoredAreTheReloads(Apply(w, run[0]), run[1..]);
    }
  }
}
