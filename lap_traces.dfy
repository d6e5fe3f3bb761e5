/** The scenarios of the counter's unit tests, as facts about `Run` on a
    counter with 100 waypoints per lap. */
module LapCounterTraces {
  import opened LapCounting
  import opened LapCounterProperties

  /** Local reports of the waypoints `a`, `a + 1`, ..., `b - 1`, in order. */
  function Sweep(a: int, b: int): (es: seq<Event>)
    ensures a <= b ==> |es| == b - a
    ensures forall i :: 0 <= i < |es| ==> es[i] == Local(a + i)
    decreases b - a
  {
    if a >= b then [] else [Local(a)] + Sweep(a + 1, b)
  }

  /** Driving forward one waypoint at a time, starting at or just behind
      `a`, keeps the lap and ends at `b - 1`. */
  lemma {:induction false} SweepForward(cfg: Config, s: State, a: int, b: int)
    requires s.strategy == PreferLocal
    requires Threshold(cfg) >= 1
    requires a < b && 0 <= a - s.idx <= Threshold(cfg)
    ensures Run(cfg, s, Sweep(a, b)) == s.(idx := b - 1)
    decreases b - a
  {
    var s1 := Apply(cfg, s, Local(a));
    assert s1 == s.(idx := a);
    if a + 1 < b {
      SweepForward(cfg, s1, a + 1, b);
    }
  }

  /** A full lap of reports `0, 1, ..., N - 1` from the last waypoint adds
      exactly one lap (at the first report, the wrap to 0). */
  lemma {:induction false} FullLap(cfg: Config, s: State)
    requires s.strategy == PreferLocal && !s.finished
    requires Threshold(cfg) >= 1
    requires s.idx == cfg.waypointsPerLap - 1
    ensures Run(cfg, s, Sweep(0, cfg.waypointsPerLap)) ==
              s.(lap := s.lap + 1, finished := s.lap + 1 >= cfg.totalLaps)
  {
    var s1 := Apply(cfg, s, Local(0));
    assert s1 == s.(lap := s.lap + 1, idx := 0, finished := s.lap + 1 >= cfg.totalLaps);
    SweepForward(cfg, s1, 1, cfg.waypointsPerLap);
  }

  const Laps100: seq<Event> := Sweep(0, 100)

  /** Two-lap race: reports 0..99 keep lap 0, the wrap to 0 gives lap 1, and
      a following report of 95 is read as a backward crossing: lap 0 again. */
  lemma NormalIncreaseDecreaseLap()
    ensures forall j :: 1 <= j <= 100 ==> Run(Config(2, 100), Initial, Sweep(0, j)).lap == 0
    ensures Run(Config(2, 100), Initial, Laps100 + [Local(0)]).lap == 1
    ensures Run(Config(2, 100), Initial, Laps100 + [Local(0), Local(95)]).lap == 0
  {
    var cfg := Config(2, 100);
    forall j | 1 <= j <= 100
      ensures Run(cfg, Initial, Sweep(0, j)).lap == 0
    {
      SweepForward(cfg, Initial, 0, j);
    }
    SweepForward(cfg, Initial, 0, 100);
    RunConcat(cfg, Initial, Laps100, [Local(0)]);
    RunConcat(cfg, Initial, Laps100, [Local(0), Local(95)]);
  }

  /** The remote reports made while the local waypoint stays at 50. */
  const StaleRemote: seq<Event> :=
    [Remote(0, 48), Remote(0, 50), Remote(0, 53), Remote(0, 60), Remote(0, 95), Remote(0, 97)]

  /** Local stuck at 50 while remote moves to 97; after a remote report of
      lap 1 the local jump back to 2 adds a lap on the strength of the
      remote lap. */
  lemma PassiveResetForNetworkDelay()
    ensures Run(Config(2, 100), Initial, Sweep(0, 51)).lap == 0
    ensures Run(Config(2, 100), Initial, Sweep(0, 51) + StaleRemote + [Remote(1, 1), Local(2)]).lap == 1
  {
    var cfg := Config(2, 100);
    SweepForward(cfg, Initial, 0, 51);
    var s := Initial.(idx := 50);
    RunConcat(cfg, Initial, Sweep(0, 51) + StaleRemote, [Remote(1, 1), Local(2)]);
    RunConcat(cfg, Initial, Sweep(0, 51), StaleRemote);
    assert Run(cfg, s, StaleRemote) == s.(remoteLap := 0, remoteIdx := 97);
  }

  /** As above without the remote report of lap 1: the remote waypoint 97
      lies far ahead of the local 2, so the lap is added all the same. */
  lemma PassiveResetForNetworkDelay2()
    ensures Run(Config(2, 100), Initial, Sweep(0, 51)).lap == 0
    ensures Run(Config(2, 100), Initial, Sweep(0, 51) + StaleRemote + [Local(2)]).lap == 1
  {
    var cfg := Config(2, 100);
    SweepForward(cfg, Initial, 0, 51);
    var s := Initial.(idx := 50);
    RunConcat(cfg, Initial, Sweep(0, 51) + StaleRemote, [Local(2)]);
    RunConcat(cfg, Initial, Sweep(0, 51), StaleRemote);
    assert Run(cfg, s, StaleRemote) == s.(remoteLap := 0, remoteIdx := 97);
  }

  /** A remotely driven counter takes the remote lap and waypoint at once. */
  lemma WithNormalRemoteUpdate()
    ensures Run(Config(2, 100), Initial, [Switch(PreferRemote), Remote(1, 10)]).lap == 1
    ensures Run(Config(2, 100), Initial, [Switch(PreferRemote), Remote(1, 10)]).idx == 10
  {
  }

  /** Three laps of 0..99 followed by a final 0: lap 3 and finished. */
  lemma Finish()
    ensures var r := Run(Config(3, 100), Initial, Laps100 + Laps100 + Laps100 + [Local(0)]);
            r.lap == 3 && r.finished
  {
    var cfg := Config(3, 100);
    var s0 := Initial.(idx := 99);
    SweepForward(cfg, Initial, 0, 100);
    FullLap(cfg, s0);
    FullLap(cfg, s0.(lap := 1));
    RunConcat(cfg, Initial, Laps100, Laps100);
    RunConcat(cfg, Initial, Laps100 + Laps100, Laps100);
    RunConcat(cfg, Initial, Laps100 + Laps100 + Laps100, [Local(0)]);
  }

  /** After one lap, a reconnect resets to lap 2 at waypoint 8; the next
      report of 10 is ordinary forward travel. */
  lemma NetKartReconnect()
    ensures Run(Config(3, 100), Initial, Laps100 + [Local(0), ResetTo(2, 8)]).lap == 2
    ensures var r := Run(Config(3, 100), Initial, Laps100 + [Local(0), ResetTo(2, 8), Local(10)]);
            r.lap == 2 && r.idx == 10
  {
    var cfg := Config(3, 100);
    SweepForward(cfg, Initial, 0, 100);
    RunConcat(cfg, Initial, Laps100, [Local(0), ResetTo(2, 8)]);
    RunConcat(cfg, Initial, Laps100, [Local(0), ResetTo(2, 8), Local(10)]);
  }

  /** The reconnect test run on the class itself, loop included. */
  method NetKartReconnectOnCounter() returns (lap: int, idx: int)
    ensures lap == 2 && idx == 10
  {
    var lc := new LapCounter(3, 100);
    for i := 0 to 101
      invariant lc.Settings() == Config(3, 100)
      invariant lc.Snapshot() == if i == 0 then Initial
                                 else if i <= 100 then Initial.(idx := i - 1)
                                 else Initial.(lap := 1)
    {
      var k := if i == 100 then 0 else i;
      lc.UpdateWayPointLocal(k);
    }
    assert lc.CurrentLap() == 1;
    lc.Reset(2, 8);
    lc.UpdateWayPointLocal(10);
    lap, idx := lc.CurrentLap(), lc.CurrentWaypointIndex();
  }
}
