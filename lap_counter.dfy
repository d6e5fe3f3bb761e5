/** A per-racer lap counter for a circular, waypoint-segmented race track.
    The counter only ever sees waypoint indices; it infers lap completions
    (and reversals across the start/finish seam) from the size of the jump
    between consecutive indices, and may consult the last remote state
    reported over the network as a tie-breaker.

    The module holds the pure specification of every state change (the
    functions over `State`) and the class `LapCounter`, whose methods update
    its fields in place and are proved to follow that specification. */
module LapCounting {

  datatype UpdateStrategy = PreferLocal | PreferRemote

  /** Largest waypoint jump still read as ordinary travel near the seam. */
  const MaxWaypointError: int := 12

  /** The two values fixed when a counter is created. */
  datatype Config = Config(totalLaps: int, waypointsPerLap: int)

  /** Everything a counter can change: the strategy, the authoritative lap
      and waypoint, the last remote pair and the finished flag. */
  datatype State = State(
    strategy: UpdateStrategy,
    lap: int,
    idx: int,
    remoteLap: int,
    remoteIdx: int,
    finished: bool)

  /** The state a freshly constructed counter is in. */
  const Initial: State := State(PreferLocal, 0, 0, 0, 0, false)

  /** A jump in waypoint index strictly larger than this crosses the seam. */
  function Threshold(cfg: Config): int {
    cfg.waypointsPerLap - MaxWaypointError
  }

  /** The lap increase: one more lap, and finished once the total is reached.
      It does not look at the finished flag itself. */
  function Increased(cfg: Config, s: State): State {
    var lap := s.lap + 1;
    if lap >= cfg.totalLaps then s.(lap := lap, finished := true) else s.(lap := lap)
  }

  /** The lap decrease: one lap less, clamped at 0. */
  function Decreased(s: State): State {
    var lap := s.lap - 1;
    s.(lap := if lap < 0 then 0 else lap)
  }

  /** A local waypoint report `n`. It leaves the strategy and the remote
      pair alone and never clears the finished flag; under PreferLocal it
      always ends with the waypoint equal to `n`. */
  function LocalStep(cfg: Config, s: State, n: int): (r: State)
    ensures r.strategy == s.strategy
    ensures r.remoteLap == s.remoteLap && r.remoteIdx == s.remoteIdx
    ensures s.finished ==> r.finished
    ensures s.strategy == PreferLocal ==> r.idx == n
  {
    if s.strategy != PreferLocal then s
    else
      var prev := s.idx;
      var mid :=
        if n < prev then
          if prev - n > Threshold(cfg) then
            if s.finished then s else Increased(cfg, s.(idx := n))
          else if s.remoteLap > s.lap then Increased(cfg, s)
          else if s.remoteIdx - n > Threshold(cfg) then Increased(cfg, s.(idx := n))
          else s.(idx := n)
        else if n - prev > Threshold(cfg) then Decreased(s).(idx := n)
        else s.(idx := n);
      mid.(idx := n)
  }

  /** A remote report: the remote pair is always recorded; under
      PreferRemote it also becomes the authoritative lap and waypoint. */
  function RemoteStep(s: State, lap: int, idx: int): (r: State)
    ensures r.remoteLap == lap && r.remoteIdx == idx
    ensures r.strategy == s.strategy && r.finished == s.finished
    ensures s.strategy == PreferRemote ==> r.lap == lap && r.idx == idx
    ensures s.strategy != PreferRemote ==> r.lap == s.lap && r.idx == s.idx
  {
    var recorded := s.(remoteLap := lap, remoteIdx := idx);
    if s.strategy == PreferRemote then recorded.(lap := lap, idx := idx) else recorded
  }

  /** A reconnect resynchronisation: lap and waypoint overwritten verbatim. */
  function ResetStep(s: State, lap: int, idx: int): State {
    s.(lap := lap, idx := idx)
  }

  /** A strategy change: only the strategy is replaced. */
  function SwitchStep(s: State, strategy: UpdateStrategy): State {
    s.(strategy := strategy)
  }

  /** One call of a public mutator on a counter, as seen by its callers. */
  datatype Event =
    | Local(n: int)
    | Remote(lap: int, idx: int)
    | ResetTo(lap: int, idx: int)
    | Switch(strategy: UpdateStrategy)
    | IncLap
    | DecLap

  function Apply(cfg: Config, s: State, e: Event): State {
    match e
    case Local(n) => LocalStep(cfg, s, n)
    case Remote(lap, idx) => RemoteStep(s, lap, idx)
    case ResetTo(lap, idx) => ResetStep(s, lap, idx)
    case Switch(strategy) => SwitchStep(s, strategy)
    case IncLap => Increased(cfg, s)
    case DecLap => Decreased(s)
  }

  /** The state after a sequence of calls, first call first. */
  function Run(cfg: Config, s: State, es: seq<Event>): State
    decreases |es|
  {
    if es == [] then s else Run(cfg, Apply(cfg, s, es[0]), es[1..])
  }

  class LapCounter {
    var strategy: UpdateStrategy
    const totalLapCnt: int
    const waypointsCntPerLap: int
    var curLapCnt: int
    var curWaypointIdx: int
    var curLapCntRemote: int
    var curWaypointIdxRemote: int
    var isFinished: bool

    /** The fields that calls may change, as one value. */
    ghost function Snapshot(): State
      reads this
    {
      State(strategy, curLapCnt, curWaypointIdx, curLapCntRemote, curWaypointIdxRemote, isFinished)
    }

    function Settings(): Config {
      Config(totalLapCnt, waypointsCntPerLap)
    }

    constructor (lapCount: int, waypointsCntPerLap: int)
      ensures Settings() == Config(lapCount, waypointsCntPerLap)
      ensures Snapshot() == Initial
    {
      totalLapCnt := lapCount;
      this.waypointsCntPerLap := waypointsCntPerLap;
      strategy := PreferLocal;
      curLapCnt, curWaypointIdx := 0, 0;
      curLapCntRemote, curWaypointIdxRemote := 0, 0;
      isFinished := false;
    }

    method SetStrategy(s: UpdateStrategy)
      modifies this
      ensures Snapshot() == SwitchStep(old(Snapshot()), s)
    {
      strategy := s;
    }

    /** The local waypoint report, proved to follow `LocalStep`. */
    method UpdateWayPointLocal(newWaypointIdx: int)
      modifies this
      ensures Snapshot() == LocalStep(Settings(), old(Snapshot()), newWaypointIdx)
    {
      if strategy != PreferLocal {
        return;
      }
      var originWpIdx := curWaypointIdx;
      if newWaypointIdx < originWpIdx {
        if originWpIdx - newWaypointIdx > Threshold(Settings()) {
          if isFinished {
            // a finished counter ignores the wrap; only a warning would be logged
          } else {
            curWaypointIdx := newWaypointIdx;
            IncreaseLap();
          }
        } else {
          if curLapCntRemote > curLapCnt {
            IncreaseLap();
          } else {
            if curWaypointIdxRemote - newWaypointIdx > Threshold(Settings()) {
              curWaypointIdx := newWaypointIdx;
              IncreaseLap();
            } else {
              curWaypointIdx := newWaypointIdx;
            }
          }
        }
      } else {
        if newWaypointIdx - originWpIdx > Threshold(Settings()) {
          DecreaseLap();
          curWaypointIdx := newWaypointIdx;
        } else {
          curWaypointIdx := newWaypointIdx;
        }
      }
      curWaypointIdx := newWaypointIdx;
    }

    method UpdateWayPointRemote(lapCount: int, newWaypointIdx: int)
      modifies this
      ensures curLapCntRemote == lapCount && curWaypointIdxRemote == newWaypointIdx
      ensures strategy == old(strategy) && isFinished == old(isFinished)
      ensures old(strategy) == PreferRemote ==> curLapCnt == lapCount && curWaypointIdx == newWaypointIdx
      ensures old(strategy) != PreferRemote ==> curLapCnt == old(curLapCnt) && curWaypointIdx == old(curWaypointIdx)
      ensures Snapshot() == RemoteStep(old(Snapshot()), lapCount, newWaypointIdx)
    {
      curLapCntRemote := lapCount;
      curWaypointIdxRemote := newWaypointIdx;
      if strategy == PreferRemote {
        curLapCnt := lapCount;
        curWaypointIdx := newWaypointIdx;
      }
    }

    method Reset(lapCount: int, waypointIndex: int)
      modifies this
      ensures curLapCnt == lapCount && curWaypointIdx == waypointIndex
      ensures strategy == old(strategy) && isFinished == old(isFinished)
      ensures curLapCntRemote == old(curLapCntRemote) && curWaypointIdxRemote == old(curWaypointIdxRemote)
      ensures Snapshot() == ResetStep(old(Snapshot()), lapCount, waypointIndex)
    {
      curLapCnt := lapCount;
      curWaypointIdx := waypointIndex;
    }

    function CurrentLap(): (r: int)
      reads this
      ensures r == Snapshot().lap
    {
      curLapCnt
    }

    function CurrentWaypointIndex(): (r: int)
      reads this
      ensures r == Snapshot().idx
    {
      curWaypointIdx
    }

    function IsFinished(): (r: bool)
      reads this
      ensures r == Snapshot().finished
    {
      isFinished
    }

    /** Adds a lap and raises the finished flag once the total is reached.
        There is no guard against a counter that has already finished. */
    method IncreaseLap()
      modifies this
      ensures curLapCnt == old(curLapCnt) + 1
      ensures isFinished == (old(isFinished) || curLapCnt >= totalLapCnt)
      ensures Snapshot() == Increased(Settings(), old(Snapshot()))
    {
      curLapCnt := curLapCnt + 1;
      if curLapCnt >= totalLapCnt {
        isFinished := true;
      }
    }

    /** Removes a lap, never going below 0. */
    method DecreaseLap()
      modifies this
      ensures curLapCnt >= 0
      ensures curLapCnt == if old(curLapCnt) >= 1 then old(curLapCnt) - 1 else 0
      ensures Snapshot() == Decreased(old(Snapshot()))
    {
      curLapCnt := curLapCnt - 1;
      if curLapCnt < 0 {
        curLapCnt := 0;
      }
    }

    /** Progress as one number: laps count in whole laps of waypoints. For a
        waypoint inside the lap the score gives back both lap and waypoint. */
    function GetScore(lap: int, wpIdx: int): (r: int)
      ensures 0 <= wpIdx < waypointsCntPerLap ==>
                r / waypointsCntPerLap == lap && r % waypointsCntPerLap == wpIdx
    {
      ScoreDecodes(lap, wpIdx, waypointsCntPerLap);
      lap * waypointsCntPerLap + wpIdx
    }

    /** The score orders progress lexicographically, lap first, for any two
        waypoints inside the lap. */
    lemma ScoreOrder(lap1: int, idx1: int, lap2: int, idx2: int)
      requires 0 <= idx1 < waypointsCntPerLap && 0 <= idx2 < waypointsCntPerLap
      ensures GetScore(lap1, idx1) < GetScore(lap2, idx2) <==>
                lap1 < lap2 || (lap1 == lap2 && idx1 < idx2)
    {
      var n := waypointsCntPerLap;
      if lap1 < lap2 {
        MulMonotone(lap1 + 1, lap2, n);
      } else if lap2 < lap1 {
        MulMonotone(lap2 + 1, lap1, n);
      }
    }
  }

  lemma MulMonotone(a: int, b: int, n: int)
    requires a <= b && 0 < n
    ensures a * n <= b * n
  {
    var d := b - a;
    assert b * n == a * n + d * n;
  }

  lemma ScoreDecodes(lap: int, w: int, n: int)
    ensures 0 <= w < n ==> (lap * n + w) / n == lap && (lap * n + w) % n == w
  {
    if 0 <= w < n {
      var r := lap * n + w;
      // Euclidean division: the unique q, m with r == q * n + m, 0 <= m < n
      var q, m := r / n, r % n;
      assert r == q * n + m;
      assert (q - lap) * n == w - m;
      if q > lap {
        MulMonotone(1, q - lap, n);
      } else if q < lap {
        MulMonotone(1, lap - q, n);
      }
    }
  }
}
