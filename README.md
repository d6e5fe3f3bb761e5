# LapCounter in Dafny

This project models the lap counter of a multiplayer kart race: one
`LapCounter` per racer. The counter is told waypoint indices on a looping
track and infers from them when the racer finished a lap or went back across
the start/finish seam. It has two sources. Local reports come from the
racer's own simulation. Remote reports come from the network and carry a lap
and a waypoint. The strategy decides which of the two is authoritative. A
`Reset` overwrites lap and waypoint after a reconnect.

Files:

- `lap_counter.dfy`, module `LapCounting`. It holds the value `State` (the
  six mutable fields), `Config` (total laps and waypoints per lap), the
  constant `MaxWaypointError` (12) and one pure function per state change
  (`LocalStep`, `RemoteStep`, `ResetStep`, `SwitchStep`, `Increased`,
  `Decreased`). `Event` names a call of any of the six public mutators, and
  `Run` describes a sequence of such calls. The class `LapCounter` has the
  source's fields and one method per entry point. Every method is proved to
  leave `Snapshot()`, the fields read as a `State`, equal to the matching
  pure function of the old state. The getters `CurrentLap`,
  `CurrentWaypointIndex` and `IsFinished` are functions that read one field.
- `lap_properties.dfy`, module `LapCounterProperties`. It proves lemmas about
  the pure functions: strategy gating, the three cases of a local report,
  the bound on lap movement and the life of the finished flag.
- `lap_traces.dfy`, module `LapCounterTraces`. The scenarios of
  `Assets/UnitTests/Editor/TestLapCounter.cs` become lemmas over `Run`. The
  reconnect test is also replayed on the class, loop included.

The model follows the code where it differs from what one might expect:

- After the wrap to 0 at the end of the first lap (lap 1), a report of 95 is
  a rise of 95, above the threshold 88. The code therefore decreases the lap
  back to 0, and the unit test asserts exactly that. It is not read as a
  small backward move that keeps lap 1. `NormalIncreaseDecreaseLap` proves
  the code's behaviour.
- A finished counter is meant to stop counting laps. In the code only the
  large-backward-jump branch checks the flag, because `IncreaseLap` has no
  guard of its own. The two remote-assisted branches still add laps past
  the total (`FinishedLapPassesTotal`).
- A comment at LapCounter.cs:75 says to take the remote lap when it is
  ahead, but the code at :76-79 calls `IncreaseLap` and adds exactly one
  lap. A remote lap of lap + 3 therefore gives lap + 1
  (`SmallBackwardMove`).
- The finished flag is never lowered. It does not imply that the lap is at
  least the total, because a later lap decrease, `Reset` or remote report
  can lower the lap.
- The converse fails too: a lap at or past the total does not imply the
  flag. Only `IncreaseLap` raises it (LapCounter.cs:189-191), so `Reset(5,
  0)`, or a remote report of lap 5 under PreferRemote, with a total of 3
  leaves the flag false (`FinishedNotImpliedByLap`).

## Model

| member | source | states |
|---|---|---|
| LapCounting.LocalStep | Assets/LapCounter/LapCounter.cs:49-114 | a local report never changes the strategy or the remote pair and never clears the finished flag; under PreferLocal the waypoint always ends equal to the reported index, whichever branch ran (the final assignment) |
| LapCounting.RemoteStep | Assets/LapCounter/LapCounter.cs:120-130 | the remote pair is always recorded; lap and waypoint take the remote values exactly when the strategy is PreferRemote; strategy and finished flag untouched |
| LapCounting.LapCounter.constructor | Assets/LapCounter/LapCounter.cs:33-38 | a new counter keeps the given total and lap size, starts with PreferLocal and every other field 0 or false |
| LapCounting.LapCounter.SetStrategy | Assets/LapCounter/LapCounter.cs:40-43 | only the strategy changes |
| LapCounting.LapCounter.CurrentLap | Assets/LapCounter/LapCounter.cs:145-150 | returns the lap field unchanged |
| LapCounting.LapCounter.CurrentWaypointIndex | Assets/LapCounter/LapCounter.cs:152-157 | returns the waypoint field unchanged |
| LapCounting.LapCounter.IsFinished | Assets/LapCounter/LapCounter.cs:159-166 | returns the finished flag unchanged |
| LapCounting.LapCounter.UpdateWayPointLocal | Assets/LapCounter/LapCounter.cs:49-114 | the in-place branches leave the fields exactly as `LocalStep` of the old state says |
| LapCounting.LapCounter.UpdateWayPointRemote | Assets/LapCounter/LapCounter.cs:120-130 | remote pair stored whatever the strategy; lap and waypoint overwritten only under PreferRemote; strategy and finished flag unchanged |
| LapCounting.LapCounter.Reset | Assets/LapCounter/LapCounter.cs:137-143 | lap and waypoint set verbatim; strategy, remote pair and finished flag unchanged |
| LapCounting.LapCounter.IncreaseLap | Assets/LapCounter/LapCounter.cs:183-194 | lap goes up by one with no finished guard; the flag becomes true when the new lap reaches the total and is never lowered |
| LapCounting.LapCounter.DecreaseLap | Assets/LapCounter/LapCounter.cs:196-204 | lap goes down by one, clamped at 0, so it is 0 or more afterwards |
| LapCounting.LapCounter.GetScore | Assets/LapCounter/LapCounter.cs:206-209 | for a waypoint inside the lap, the score gives back the lap (quotient) and the waypoint (remainder) |
| LapCounting.LapCounter.ScoreOrder | Assets/LapCounter/LapCounter.cs:206-209 | for waypoints inside the lap, one score is smaller than another exactly when its progress is lexicographically smaller, lap first |
| LapCounterProperties.LocalIgnoredUnderPreferRemote | Assets/LapCounter/LapCounter.cs:51-54 | under PreferRemote a local report changes no field |
| LapCounterProperties.LocalRunIgnoredUnderPreferRemote | Assets/LapCounter/LapCounter.cs:51-54 | under PreferRemote any sequence of local reports leaves the state unchanged |
| LapCounterProperties.LargeBackwardJump | Assets/LapCounter/LapCounter.cs:58-71 | a drop larger than N − 12 adds exactly one lap when not finished and keeps the lap when finished; the flag is raised iff the new lap reaches the total; the waypoint becomes the new index and nothing else changes |
| LapCounterProperties.SmallBackwardMove | Assets/LapCounter/LapCounter.cs:73-94 | a drop of at most N − 12 adds one lap iff the remote lap is ahead or the remote waypoint is more than N − 12 ahead of the new index, otherwise keeps the lap; no finished check on this path |
| LapCounterProperties.IndexNotDecreasing | Assets/LapCounter/LapCounter.cs:97-111 | a rise larger than N − 12 gives max(lap − 1, 0), any other rise or no change keeps the lap; the flag is untouched |
| LapCounterProperties.SameIndexIsNoOp | Assets/LapCounter/LapCounter.cs:97-113 | with at least 12 waypoints per lap, reporting the current waypoint again changes nothing |
| LapCounterProperties.SameIndexOnShortTrack | Assets/LapCounter/LapCounter.cs:97-113 | with fewer than 12 waypoints per lap the threshold is negative, so repeating the current waypoint runs the lap decrease: one lap less, clamped at 0 |
| LapCounterProperties.LapMovesByAtMostOne | Assets/LapCounter/LapCounter.cs:58-111 | from a lap of 0 or more, one local report moves the lap by at most one and keeps it at 0 or more |
| LapCounterProperties.NegativeLapClampsToZero | Assets/LapCounter/LapCounter.cs:196-201 | under PreferLocal, from any negative lap (as Reset may leave), a rise above N − 12 sets the lap to exactly 0 |
| LapCounterProperties.LocalRunLapBounds | Assets/LapCounter/LapCounter.cs:58-111 | over a sequence of local reports from a lap of 0 or more, the lap stays at 0 or more and moves by at most the number of reports |
| LapCounterProperties.FinishedRaisedOnlyByLapIncrease | Assets/LapCounter/LapCounter.cs:183-194 | the flag goes from false to true only on a call that adds one lap and reaches the total: a local report under PreferLocal, or a direct call of the public `IncreaseLap` under either strategy |
| LapCounterProperties.FinishedIsSticky | Assets/LapCounter/LapCounter.cs:159-166 | once set, the flag stays set through any sequence of calls of the six public mutators |
| LapCounterProperties.FinishedNotImpliedByLap | Assets/LapCounter/LapCounter.cs:120-143 | with a total of 3, Reset(5, 0) or a remote report of lap 5 under PreferRemote leaves lap 5 with the flag still false |
| LapCounterProperties.FinishedLapPassesTotal | Assets/LapCounter/LapCounter.cs:76-88 | a finished counter still gains a lap, beyond the total, on both remote-assisted paths |
| LapCounterProperties.RunConcat | Assets/UnitTests/Editor/TestLapCounter.cs:16-39 | running two call sequences one after the other equals running their concatenation |
| LapCounterTraces.Sweep | Assets/UnitTests/Editor/TestLapCounter.cs:16-24 | the reports of consecutive waypoints a … b − 1: length b − a, element i is a report of a + i |
| LapCounterTraces.SweepForward | Assets/UnitTests/Editor/TestLapCounter.cs:16-28 | stepping forward one waypoint at a time keeps the lap and ends at the last waypoint |
| LapCounterTraces.FullLap | Assets/UnitTests/Editor/TestLapCounter.cs:138-143 | a full lap of reports from the last waypoint adds exactly one lap and sets the flag iff the total is reached |
| LapCounterTraces.NormalIncreaseDecreaseLap | Assets/UnitTests/Editor/TestLapCounter.cs:10-41 | lap 0 through waypoints 0..99, lap 1 at the wrap to 0, lap 0 again after a report of 95 |
| LapCounterTraces.PassiveResetForNetworkDelay | Assets/UnitTests/Editor/TestLapCounter.cs:44-76 | with the remote lap ahead, the jump back from 50 to 2 adds a lap |
| LapCounterTraces.PassiveResetForNetworkDelay2 | Assets/UnitTests/Editor/TestLapCounter.cs:79-110 | with the remote waypoint at 97, the jump back from 50 to 2 adds a lap |
| LapCounterTraces.WithNormalRemoteUpdate | Assets/UnitTests/Editor/TestLapCounter.cs:113-124 | under PreferRemote one remote report (1, 10) gives lap 1 at waypoint 10 |
| LapCounterTraces.Finish | Assets/UnitTests/Editor/TestLapCounter.cs:134-147 | 301 reports cycling 0..99 with a total of 3 give lap 3 and finished |
| LapCounterTraces.NetKartReconnect | Assets/UnitTests/Editor/TestLapCounter.cs:153-177 | Reset(2, 8) gives lap 2; the report of 10 that follows keeps lap 2 and sets waypoint 10 |
| LapCounterTraces.NetKartReconnectOnCounter | Assets/UnitTests/Editor/TestLapCounter.cs:153-177 | the same scenario run on a `LapCounter` object, with the test's loop, ends at lap 2 and waypoint 10 |

## Left out

- Logging (`Debug.Log`, `Debug.LogWarning`) and the hooks `OnFinished`, `OnIncreaseLap` and `OnDecreaseLap` (LapCounter.cs:65, :139, :168-181) only write log lines and change no state. They are not modelled.
- C# 32-bit `int` arithmetic is not modelled: every lap, waypoint, difference and score is an unbounded integer. Where the source would wrap, the model can take a different branch. This matters for the increment in `IncreaseLap` (LapCounter.cs:185), the score in `GetScore` (:208) and the three index differences compared with the threshold: `originWpIdx - newWaypoitIdx` (:60), `_curWaypointIdxRemote - newWaypoitIdx` (:84) and `newWaypoitIdx - originWpIdx` (:99). `Reset` and remote reports take any `int` verbatim, so a waypoint near the `int` limits can reach these comparisons. For example, after `Reset(2, -2147483648)` with 100 waypoints per lap, a local report of 5 keeps lap 2 in C#, because the difference wraps to a negative number. The model sees a difference above 88 and lowers the lap to 1.
- LapCounterProperties.LapMovesByAtMostOne: holds only from a lap of 0 or more. `Reset` and remote reports take any lap verbatim, and from a negative lap the clamp jumps further (`NegativeLapClampsToZero`).
- LapCounterProperties.SameIndexIsNoOp: holds only with at least 12 waypoints per lap. The threshold N − 12 may be negative (`SameIndexOnShortTrack`).
- `TestSwitchStragegyInCriticalSituation` (TestLapCounter.cs:127-131) only passes and asserts nothing, so it has no lemma.
- The NUnit harness itself is not modelled; its scenarios are the lemmas in `LapCounterTraces`.
