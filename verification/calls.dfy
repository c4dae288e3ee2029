/**
 The calls of a `Handle` as runs of the server: what HandleModel says of a call among arbitrary
 interference is what the server's actions do when its operations come between other actions.
 */
module Calls {
  import opened Latches
  import opened HandleModel
  import opened System

  lemma {:induction false} GracesAreKept(cfg: Config, s: System, run: seq<Action>)
    requires ValidRun(cfg, s, run)
    ensures s.sh.graces <= Exec(cfg, s, run).sh.graces
    decreases |run|
  {
    if run != [] {
      if run[0].TaskStep? {
        TaskKeepsShared(cfg, s.tasks[run[0].i], s.sh, run[0].reply);
      } else if run[0].ServeStep? {
        ServeKeepsShared(cfg, s.serve, s.sh, run[0].answer);
      }
      GracesAreKept(cfg, Apply(cfg, s, run[0]), run[1..]);
    }
  }

  /** Run `gap` is what others do, from `s` on, before operation `k` of the call. */
  predicate Gap(cfg: Config, s: System, gap: seq<Action>, others: Others, k: nat) {
    ValidRun(cfg, s, gap) && Exec(cfg, s, gap).sh == others(k, s.sh)
  }

  lemma GapThen(cfg: Config, s0: System, s: System, gap: seq<Action>, others: Others, k: nat, a: Action)
    returns (u: System)
    requires Reaches(cfg, s0, s) && Gap(cfg, s, gap, others, k) && Enabled(Exec(cfg, s, gap), a)
    ensures u == Apply(cfg, Exec(cfg, s, gap), a) && Reaches(cfg, s0, u)
  {
    var t := Exec(cfg, s, gap);
    assert Reaches(cfg, s, t);
    ReachesOn(cfg, s0, s, t);
    u := Next(cfg, s0, t, a);
  }

  /**
   Whatever the server does in the gaps of a `graceful_shutdown` call, the call is its three actions, in
   this order.
   */
  lemma GracefulCallIsRun(
      cfg: Config, s: System, d: Grace, gap0: seq<Action>, gap1: seq<Action>, gap2: seq<Action>, others: Others)
    returns (written: System, stored: System, end: System)
    requires Gap(cfg, s, gap0, others, 0)
    requires Gap(cfg, Apply(cfg, Exec(cfg, s, gap0), SetGrace(d)), gap1, others, 1)
    requires var s1 := Exec(cfg, Apply(cfg, Exec(cfg, s, gap0), SetGrace(d)), gap1);
      Enabled(s1, GracefulStore) ==> Gap(cfg, Apply(cfg, s1, GracefulStore), gap2, others, 2)
    ensures written == Apply(cfg, Exec(cfg, s, gap0), SetGrace(d))
    ensures var t := Exec(cfg, written, gap1);
      Enabled(t, GracefulStore) && stored == Apply(cfg, t, GracefulStore)
    ensures var t := Exec(cfg, stored, gap2);
      Enabled(t, GracefulBroadcast) && end == Apply(cfg, t, GracefulBroadcast) && Reaches(cfg, s, end)
    ensures written.sh.gracefulDur == d && d in written.sh.graces
    ensures written.sh.graceful == Exec(cfg, s, gap0).sh.graceful
    ensures stored.sh == GracefulStored(s.sh, d, others) && stored.sh.graceful.stored && d in stored.sh.graces
    ensures end.sh == GracefulEffect(s.sh, d, others) && end.sh.graceful.finished && d in end.sh.graces
  {
    assert ValidRun(cfg, s, []) && Exec(cfg, s, []) == s;
    written := GapThen(cfg, s, s, gap0, others, 0, SetGrace(d));
    GracesAreKept(cfg, written, gap1);
    var t := Exec(cfg, written, gap1);
    assert d == written.sh.graces[|written.sh.graces| - 1] == t.sh.graces[|written.sh.graces| - 1];
    stored := GapThen(cfg, s, written, gap1, others, 1, GracefulStore);
    GracesAreKept(cfg, stored, gap2);
    RunMovesForward(cfg, stored, gap2);
    end := GapThen(cfg, s, stored, gap2, others, 2, GracefulBroadcast);
    assert d == end.sh.graces[|written.sh.graces| - 1];
  }

  /** Likewise a `shutdown` call is its two actions. */
  lemma ShutdownCallIsRun(cfg: Config, s: System, gap0: seq<Action>, gap1: seq<Action>, others: Others, at: nat)
    returns (stored: System, end: System)
    requires Gap(cfg, s, gap0, others, at)
    requires Gap(cfg, Apply(cfg, Exec(cfg, s, gap0), ShutdownStore), gap1, others, at + 1)
    ensures stored == Apply(cfg, Exec(cfg, s, gap0), ShutdownStore) && stored.sh.shutdown.stored
    ensures var t := Exec(cfg, stored, gap1);
      Enabled(t, ShutdownBroadcast) && end == Apply(cfg, t, ShutdownBroadcast) && Reaches(cfg, s, end)
    ensures end.sh == ShutdownEffect(s.sh, others, at) && end.sh.shutdown == Latch(true, true)
  {
    assert ValidRun(cfg, s, []) && Exec(cfg, s, []) == s;
    stored := GapThen(cfg, s, s, gap0, others, at, ShutdownStore);
    RunMovesForward(cfg, stored, gap1);
    end := GapThen(cfg, s, stored, gap1, others, at + 1, ShutdownBroadcast);
  }
}
