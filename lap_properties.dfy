/** Properties of the lap counter's state changes: which stream may change
    what, the three cases of a local report, the bound on how far one report
    moves the lap, and the life of the finished flag. */
module LapCounterProperties {
  import opened LapCounting

  // ---------------------------------------------------------------------
  // Strategy gating

  /** Under PreferRemote a local report changes nothing. */
  lemma LocalIgnoredUnderPreferRemote(cfg: Config, s: State, n: int)
    requires s.strategy == PreferRemote
    ensures LocalStep(cfg, s, n) == s
  {
  }

  /** A remotely driven counter (PreferRemote) stays exactly as it is
      through any number of local reports. */
  lemma {:induction false} LocalRunIgnoredUnderPreferRemote(cfg: Config, s: State, es: seq<Event>)
    requires s.strategy == PreferRemote
    requires forall i :: 0 <= i < |es| ==> es[i].Local?
    ensures Run(cfg, s, es) == s
  {
    if es != [] {
      LocalRunIgnoredUnderPreferRemote(cfg, s, es[1..]);
    }
  }

  // ---------------------------------------------------------------------
  // The three cases of a local report under PreferLocal

  /** Index dropped by more than the threshold: a forward crossing of the
      seam. One more lap unless the race is already finished, in which case
      only the waypoint moves. */
  lemma LargeBackwardJump(cfg: Config, s: State, n: int)
    requires s.strategy == PreferLocal
    requires n < s.idx && s.idx - n > Threshold(cfg)
    ensures LocalStep(cfg, s, n).lap == if s.finished then s.lap else s.lap + 1
    ensures LocalStep(cfg, s, n).finished == (s.finished || s.lap + 1 >= cfg.totalLaps)
    ensures LocalStep(cfg, s, n) == s.(lap := LocalStep(cfg, s, n).lap,
                                       idx := n,
                                       finished := LocalStep(cfg, s, n).finished)
  {
  }

  /** Index dropped by at most the threshold: ordinary reverse travel,
      unless the last remote state says a lap was completed (a higher remote
      lap, or a remote waypoint far ahead of `n`). This path does not look
      at the finished flag. */
  lemma SmallBackwardMove(cfg: Config, s: State, n: int)
    requires s.strategy == PreferLocal
    requires n < s.idx && s.idx - n <= Threshold(cfg)
    ensures var lapDone := s.remoteLap > s.lap || s.remoteIdx - n > Threshold(cfg);
            LocalStep(cfg, s, n).lap == (if lapDone then s.lap + 1 else s.lap) &&
            LocalStep(cfg, s, n).finished == (s.finished || (lapDone && s.lap + 1 >= cfg.totalLaps))
    ensures LocalStep(cfg, s, n).idx == n
  {
  }

  /** Index did not drop: a rise above the threshold is a backward crossing
      of the seam and costs a lap (never below 0); anything else keeps the
      lap. The finished flag is untouched. */
  lemma IndexNotDecreasing(cfg: Config, s: State, n: int)
    requires s.strategy == PreferLocal
    requires n >= s.idx
    ensures LocalStep(cfg, s, n).lap ==
              if n - s.idx > Threshold(cfg) then (if s.lap - 1 < 0 then 0 else s.lap - 1) else s.lap
    ensures LocalStep(cfg, s, n).finished == s.finished
    ensures LocalStep(cfg, s, n).idx == n
  {
  }

  /** Reporting the current waypoint again changes nothing, provided a lap
      has at least `MaxWaypointError` waypoints. */
  lemma SameIndexIsNoOp(cfg: Config, s: State)
    requires cfg.waypointsPerLap >= MaxWaypointError
    ensures LocalStep(cfg, s, s.idx) == s
  {
  }

  /** On a track with fewer than `MaxWaypointError` waypoints the threshold
      is negative, so repeating the current waypoint runs the lap decrease:
      one lap less, clamped at 0. */
  lemma SameIndexOnShortTrack(cfg: Config, s: State)
    requires cfg.waypointsPerLap < MaxWaypointError && s.strategy == PreferLocal
    ensures LocalStep(cfg, s, s.idx) == Decreased(s)
  {
  }

  // ---------------------------------------------------------------------
  // How far one local report moves the lap

  /** From a lap of 0 or more, one local report moves the lap by at most one
      and never makes it negative. */
  lemma LapMovesByAtMostOne(cfg: Config, s: State, n: int)
    requires s.lap >= 0
    ensures LocalStep(cfg, s, n).lap >= 0
    ensures s.lap - 1 <= LocalStep(cfg, s, n).lap <= s.lap + 1
  {
  }

  /** A negative lap (only `Reset` or a remote report can set one) is
      clamped straight to 0 by the lap decrease: a jump of more than one
      whenever the lap was below -1. */
  lemma NegativeLapClampsToZero(cfg: Config, s: State, n: int)
    requires s.strategy == PreferLocal && s.lap < 0
    requires n >= s.idx && n - s.idx > Threshold(cfg)
    ensures LocalStep(cfg, s, n).lap == 0
  {
  }

  /** Over any sequence of local reports, starting from a lap of 0 or more,
      the lap stays at 0 or more and moves by at most one per report. */
  lemma {:induction false} LocalRunLapBounds(cfg: Config, s: State, es: seq<Event>)
    requires s.lap >= 0
    requires forall i :: 0 <= i < |es| ==> es[i].Local?
    ensures Run(cfg, s, es).lap >= 0
    ensures s.lap - |es| <= Run(cfg, s, es).lap <= s.lap + |es|
    decreases |es|
  {
    if es != [] {
      LapMovesByAtMostOne(cfg, s, es[0].n);
      LocalRunLapBounds(cfg, Apply(cfg, s, es[0]), es[1..]);
    }
  }

  // ---------------------------------------------------------------------
  // The finished flag

  /** The flag is only ever raised by a call that adds a lap and reaches
      the total: a local report under PreferLocal, or a direct call of the
      public lap increase under either strategy. Remote reports, resets,
      strategy changes and the lap decrease never raise it. */
  lemma FinishedRaisedOnlyByLapIncrease(cfg: Config, s: State, e: Event)
    requires !s.finished && Apply(cfg, s, e).finished
    ensures (e.Local? && s.strategy == PreferLocal) || e.IncLap?
    ensures Apply(cfg, s, e).lap == s.lap + 1 >= cfg.totalLaps
  {
  }

  /** No call ever lowers the flag again. */
  lemma {:induction false} FinishedIsSticky(cfg: Config, s: State, es: seq<Event>)
    requires s.finished
    ensures Run(cfg, s, es).finished
    decreases |es|
  {
    if es != [] {
      FinishedIsSticky(cfg, Apply(cfg, s, es[0]), es[1..]);
    }
  }

  /** Reaching the total does not raise the flag by itself: a reset or a
      remote report under PreferRemote can put the lap past the total and
      leave the flag false. */
  lemma FinishedNotImpliedByLap()
    ensures var cfg := Config(3, 100);
            var reset := Run(cfg, Initial, [ResetTo(5, 0)]);
            var remote := Run(cfg, Initial, [Switch(PreferRemote), Remote(5, 0)]);
            reset.lap == 5 && !reset.finished && remote.lap == 5 && !remote.finished
  {
  }

  /** Only the large backward jump checks the flag: on the remote-assisted
      paths a finished counter still gains laps, past the total. */
  lemma FinishedLapPassesTotal()
    ensures var cfg := Config(3, 100);
            var ahead := State(PreferLocal, 3, 50, 4, 0, true);
            var wrapped := State(PreferLocal, 3, 50, 3, 99, true);
            LocalStep(cfg, ahead, 45).lap == 4 && LocalStep(cfg, wrapped, 5).lap == 4
  {
  }

  // ---------------------------------------------------------------------
  // Sequences of calls

  /** Running two sequences one after the other is running their
      concatenation. */
  lemma {:induction false} RunConcat(cfg: Config, s: State, a: seq<Event>, b: seq<Event>)
    ensures Run(cfg, s, a + b) == Run(cfg, Run(cfg, s, a), b)
    decreases |a|
  {
    if a == [] {
      assert a + b == b;
    } else {
      assert (a + b)[1..] == a[1..] + b;
      RunConcat(cfg, Apply(cfg, s, a[0]), a[1..], b);
    }
  }
}
