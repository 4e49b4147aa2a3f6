/** The supervisor that decides whether mapping may go on
    (include/robot_slamd/mapping/mapping_supervisor.hpp). */
module Supervisor {

  datatype State = Init | SensorCheck | MappingReady | Mapping | ActiveScanRecommended | Degraded | Lost

  datatype Level = NoData | Good | Low | DegradedLevel

  datatype Config = Config(
    startupGrace: real, minReadyTime: real, minGood: real, degradedScore: real, lostScore: real,
    maxDegraded: real, maxNoData: real, afterLowQuality: real, afterLowUpdate: real,
    encoderThreshold: int, imuThreshold: int, tofThreshold: int, twoRoutes: bool, minUpdateRate: real)
  {
    /** What validate_config demands of the mapping_supervisor section. */
    ghost predicate Valid() {
      && startupGrace >= 0.0 && minReadyTime >= 0.0 && 0.0 <= lostScore <= degradedScore <= minGood <= 1.0
      && maxDegraded >= 0.0 && maxNoData >= 0.0 && afterLowQuality >= 0.0 && afterLowUpdate >= 0.0
      && encoderThreshold >= 0 && imuThreshold >= 0 && tofThreshold >= 0
    }
  }

  /** What one update sees: the map-quality snapshot and the cumulative sensor counts. */
  datatype Input = Input(now: real, samples: nat, level: Level, score: real, recommended: bool, routes: nat,
                         updateRate: real,
                         mapFailures: nat, localizations: nat, encoderErrors: nat, imuErrors: nat, unhealthyTofs: nat,
                         allocFailures: nat)

  datatype Seconds = Seconds(mapping: real, scan: real, degraded: real, lost: real)

  datatype Sup = Sup(state: State, entered: real, lastUpdate: real, noDataSince: real, lowQualitySince: real,
                     lowUpdateSince: real, seconds: Seconds, changes: nat)

  const INIT_SUPERVISOR := Sup(Init, 0.0, -1.0, -1.0, -1.0, -1.0, Seconds(0.0, 0.0, 0.0, 0.0), 0)

  // ----- conditions of one input -----

  predicate LacksData(inp: Input) { inp.samples == 0 || inp.level == NoData }

  predicate IsLowQuality(cfg: Config, inp: Input) {
    inp.recommended || inp.level == Low || inp.score < cfg.minGood || (cfg.twoRoutes && inp.routes < 2)
  }

  predicate IsLowUpdate(cfg: Config, inp: Input) { cfg.minUpdateRate > 0.0 && inp.updateRate < cfg.minUpdateRate }

  predicate Reached(value: nat, threshold: int) { threshold > 0 && value >= threshold }

  predicate SensorsDegraded(cfg: Config, inp: Input) {
    || Reached(inp.encoderErrors, cfg.encoderThreshold) || Reached(inp.imuErrors, cfg.imuThreshold)
    || Reached(inp.unhealthyTofs, cfg.tofThreshold)
  }

  predicate AllocFailed(inp: Input) { inp.allocFailures > 0 || inp.mapFailures > 0 }

  predicate ScoreDegraded(cfg: Config, inp: Input) { inp.score < cfg.degradedScore && !LacksData(inp) }

  predicate ScoreLost(cfg: Config, inp: Input) { inp.score <= cfg.lostScore && !LacksData(inp) }

  predicate RecoveredGood(cfg: Config, inp: Input) {
    && !LacksData(inp) && inp.score >= cfg.minGood && !inp.recommended && (cfg.twoRoutes ==> inp.routes >= 2)
    && !SensorsDegraded(cfg, inp) && !AllocFailed(inp)
  }

  // ----- one update -----

  /** update_condition_timer. */
  function Timer(active: bool, now: real, since: real): real {
    if !active then -1.0 else if since < 0.0 then now else since
  }

  predicate Elapsed(since: real, now: real, limit: real) { since >= 0.0 && now - since >= limit }

  function Next(cfg: Config, state: State, duration: real, noDataTimeout: bool, scanDue: bool, inp: Input): State {
    var bad := SensorsDegraded(cfg, inp) || AllocFailed(inp) || ScoreDegraded(cfg, inp);
    match state
    case Init => if inp.now >= cfg.startupGrace || inp.samples > 0 || inp.localizations > 0 then SensorCheck else Init
    case SensorCheck =>
      if noDataTimeout then Degraded else if inp.samples > 0 || inp.localizations > 0 then MappingReady else SensorCheck
    case MappingReady =>
      if noDataTimeout || bad then Degraded
      else if duration >= cfg.minReadyTime && RecoveredGood(cfg, inp) then Mapping
      else MappingReady
    case Mapping =>
      if ScoreLost(cfg, inp) || noDataTimeout then Lost
      else if bad then Degraded
      else if scanDue then ActiveScanRecommended
      else Mapping
    case ActiveScanRecommended =>
      if ScoreLost(cfg, inp) || noDataTimeout then Lost
      else if bad then Degraded
      else if RecoveredGood(cfg, inp) then Mapping
      else ActiveScanRecommended
    case Degraded =>
      if ScoreLost(cfg, inp) || noDataTimeout || duration >= cfg.maxDegraded then Lost
      else if RecoveredGood(cfg, inp) then Mapping
      else Degraded
    case Lost => if !LacksData(inp) && inp.score > cfg.lostScore && inp.localizations > 0 then SensorCheck else Lost
  }

  function AddTime(t: Seconds, state: State, dt: real): Seconds {
    if dt <= 0.0 then t
    else match state
      case Mapping => t.(mapping := t.mapping + dt)
      case ActiveScanRecommended => t.(scan := t.scan + dt)
      case Degraded => t.(degraded := t.degraded + dt)
      case Lost => t.(lost := t.lost + dt)
      case _ => t
  }

  function Clocked(s: Sup, now: real): Sup {
    if s.lastUpdate < 0.0 then s.(entered := now, lastUpdate := now)
    else s.(seconds := AddTime(s.seconds, s.state, now - s.lastUpdate), lastUpdate := now)
  }

  function Timed(cfg: Config, s: Sup, inp: Input): Sup {
    s.(noDataSince := Timer(LacksData(inp), inp.now, s.noDataSince),
       lowQualitySince := Timer(IsLowQuality(cfg, inp), inp.now, s.lowQualitySince),
       lowUpdateSince := Timer(IsLowUpdate(cfg, inp), inp.now, s.lowUpdateSince))
  }

  function Moved(cfg: Config, s: Sup, inp: Input): Sup {
    var noDataTimeout := Elapsed(s.noDataSince, inp.now, cfg.maxNoData);
    var scanDue := Elapsed(s.lowQualitySince, inp.now, cfg.afterLowQuality) ||
      Elapsed(s.lowUpdateSince, inp.now, cfg.afterLowUpdate);
    var next := Next(cfg, s.state, inp.now - s.entered, noDataTimeout, scanDue, inp);
    if next == s.state then s else s.(state := next, entered := inp.now, changes := s.changes + 1)
  }

  function Step(cfg: Config, s: Sup, inp: Input): Sup { Moved(cfg, Timed(cfg, Clocked(s, inp.now), inp), inp) }

  // ----- the object -----

  class MappingSupervisor {
    const cfg: Config
    var state: State
    var entered: real
    var lastUpdate: real
    var noDataSince: real
    var lowQualitySince: real
    var lowUpdateSince: real
    var seconds: Seconds
    var changes: nat

    ghost function View(): Sup
      reads this
    {
      Sup(state, entered, lastUpdate, noDataSince, lowQualitySince, lowUpdateSince, seconds, changes)
    }

    constructor (cfg: Config)
      ensures this.cfg == cfg && View() == INIT_SUPERVISOR
    {
      this.cfg := cfg;
      state, entered, lastUpdate := Init, 0.0, -1.0;
      noDataSince, lowQualitySince, lowUpdateSince := -1.0, -1.0, -1.0;
      seconds, changes := Seconds(0.0, 0.0, 0.0, 0.0), 0;
    }

    method AccumulateStateTime(dt: real)
      modifies this`seconds
      ensures seconds == AddTime(old(seconds), state, dt)
    {
      if dt <= 0.0 { return; }
      if state == Mapping { seconds := seconds.(mapping := seconds.mapping + dt); }
      else if state == ActiveScanRecommended { seconds := seconds.(scan := seconds.scan + dt); }
      else if state == Degraded { seconds := seconds.(degraded := seconds.degraded + dt); }
      else if state == Lost { seconds := seconds.(lost := seconds.lost + dt); }
    }

    method UpdateConditionTimer(active: bool, now: real, since: real) returns (r: real)
      ensures r == Timer(active, now, since)
    {
      r := since;
      if active {
        if since < 0.0 { r := now; }
      } else {
        r := -1.0;
      }
    }

    method Clock(now: real)
      modifies this`entered, this`lastUpdate, this`seconds
      ensures View() == Clocked(old(View()), now)
    {
      hide AddTime;
      if lastUpdate < 0.0 {
        entered := now;
        lastUpdate := now;
      } else {
        AccumulateStateTime(now - lastUpdate);
        lastUpdate := now;
      }
    }

    method Choose(inp: Input, noDataTimeout: bool, scanDue: bool) returns (next: State)
      ensures next == Next(cfg, state, inp.now - entered, noDataTimeout, scanDue, inp)
    {
      hide LacksData, SensorsDegraded, AllocFailed, ScoreDegraded, ScoreLost, RecoveredGood;
      var noData, sensorDegraded, allocFailure := LacksData(inp), SensorsDegraded(cfg, inp), AllocFailed(inp);
      var degradedScore, lostScore, recovered := ScoreDegraded(cfg, inp), ScoreLost(cfg, inp), RecoveredGood(cfg, inp);
      var duration := inp.now - entered;
      next := state;
      match state {
        case Init =>
          if inp.now >= cfg.startupGrace || inp.samples > 0 || inp.localizations > 0 { next := SensorCheck; }
        case SensorCheck =>
          if noDataTimeout { next := Degraded; }
          else if inp.samples > 0 || inp.localizations > 0 { next := MappingReady; }
        case MappingReady =>
          if noDataTimeout || sensorDegraded || allocFailure || degradedScore { next := Degraded; }
          else if duration >= cfg.minReadyTime && recovered { next := Mapping; }
        case Mapping =>
          if lostScore || noDataTimeout { next := Lost; }
          else if sensorDegraded || allocFailure || degradedScore { next := Degraded; }
          else if scanDue { next := ActiveScanRecommended; }
        case ActiveScanRecommended =>
          if lostScore || noDataTimeout { next := Lost; }
          else if sensorDegraded || allocFailure || degradedScore { next := Degraded; }
          else if recovered { next := Mapping; }
        case Degraded =>
          if lostScore || noDataTimeout || duration >= cfg.maxDegraded { next := Lost; }
          else if recovered { next := Mapping; }
        case Lost =>
          if !noData && inp.score > cfg.lostScore && inp.localizations > 0 { next := SensorCheck; }
      }
    }

    method RunTimers(inp: Input)
      modifies this`noDataSince, this`lowQualitySince, this`lowUpdateSince
      ensures View() == Timed(cfg, old(View()), inp)
    {
      hide Timer, LacksData, IsLowQuality, IsLowUpdate;
      noDataSince := UpdateConditionTimer(LacksData(inp), inp.now, noDataSince);
      lowQualitySince := UpdateConditionTimer(IsLowQuality(cfg, inp), inp.now, lowQualitySince);
      lowUpdateSince := UpdateConditionTimer(IsLowUpdate(cfg, inp), inp.now, lowUpdateSince);
    }

    method Move(inp: Input)
      modifies this`state, this`entered, this`changes
      ensures View() == Moved(cfg, old(View()), inp)
    {
      hide Next;
      var noDataTimeout := noDataSince >= 0.0 && inp.now - noDataSince >= cfg.maxNoData;
      var scanDue := (lowQualitySince >= 0.0 && inp.now - lowQualitySince >= cfg.afterLowQuality)
                     || (lowUpdateSince >= 0.0 && inp.now - lowUpdateSince >= cfg.afterLowUpdate);
      var next := Choose(inp, noDataTimeout, scanDue);
      if next != state {
        state := next;
        entered := inp.now;
        changes := changes + 1;
      }
    }

    method Update(inp: Input)
      modifies this
      ensures View() == Step(cfg, old(View()), inp)
    {
      hide Moved, Timed, Clocked;
      Clock(inp.now);
      RunTimers(inp);
      Move(inp);
    }
  }

  // ----- runs -----

  function Run(cfg: Config, inps: seq<Input>, n: nat): Sup
    requires n <= |inps|
  {
    if n == 0 then INIT_SUPERVISOR else Step(cfg, Run(cfg, inps, n - 1), inps[n - 1])
  }

  ghost predicate TimesAscend(inps: seq<Input>) {
    && (forall i :: 0 <= i < |inps| ==> inps[i].now >= 0.0)
    && forall i, j :: 0 <= i <= j < |inps| ==> inps[i].now <= inps[j].now
  }

  datatype Condition = DataLack | QualityLow | UpdateLow

  predicate Meets(cfg: Config, c: Condition, inp: Input) {
    match c
    case DataLack => LacksData(inp)
    case QualityLow => IsLowQuality(cfg, inp)
    case UpdateLow => IsLowUpdate(cfg, inp)
  }

  function Since(s: Sup, c: Condition): real {
    match c
    case DataLack => s.noDataSince
    case QualityLow => s.lowQualitySince
    case UpdateLow => s.lowUpdateSince
  }

  /** The condition held at updates k to n - 1, and not at the one before k. */
  ghost predicate IsRun(cfg: Config, c: Condition, inps: seq<Input>, k: nat, n: nat)
    requires n <= |inps|
  {
    k < n && (forall j :: k <= j < n ==> Meets(cfg, c, inps[j])) && (k > 0 ==> !Meets(cfg, c, inps[k - 1]))
  }

  lemma {:induction false} StepTimes(cfg: Config, s: Sup, inp: Input, c: Condition)
    ensures Since(Step(cfg, s, inp), c) == Timer(Meets(cfg, c, inp), inp.now, Since(s, c))
  {
    hide LacksData, IsLowQuality, IsLowUpdate, Next, AddTime;
  }

  /** Each condition timer is set exactly while its condition holds, and then holds the time at which
      the current unbroken run of the condition began. */
  lemma {:induction false} TimerIsRunStart(cfg: Config, c: Condition, inps: seq<Input>, n: nat)
    requires 0 < n <= |inps| && TimesAscend(inps)
    ensures var since := Since(Run(cfg, inps, n), c);
            if Meets(cfg, c, inps[n - 1]) then exists k: nat :: IsRun(cfg, c, inps, k, n) && since == inps[k].now
            else since == -1.0
  {
    hide Step, Meets, Since;
    var s, before := Run(cfg, inps, n), Run(cfg, inps, n - 1);
    StepTimes(cfg, before, inps[n - 1], c);
    assert s == Step(cfg, before, inps[n - 1]);
    if n > 1 {
      TimerIsRunStart(cfg, c, inps, n - 1);
    } else {
      NothingTimed(c);
      assert before == INIT_SUPERVISOR;
    }
    if Meets(cfg, c, inps[n - 1]) {
      if n > 1 && Meets(cfg, c, inps[n - 2]) {
        var k: nat :| IsRun(cfg, c, inps, k, n - 1) && Since(before, c) == inps[k].now;
        assert IsRun(cfg, c, inps, k, n);
      } else {
        assert IsRun(cfg, c, inps, n - 1, n);
      }
    }
  }

  lemma {:induction false} NothingTimed(c: Condition)
    ensures Since(INIT_SUPERVISOR, c) == -1.0
  {}

  /** What it takes to leave for want of data: a run of updates without data that began at least the
      configured time ago. */
  lemma {:induction false} NoDataTimeoutMeans(cfg: Config, inps: seq<Input>, n: nat)
    requires 0 < n <= |inps| && TimesAscend(inps)
    ensures Elapsed(Run(cfg, inps, n).noDataSince, inps[n - 1].now, cfg.maxNoData) <==>
            exists k: nat :: IsRun(cfg, DataLack, inps, k, n) && inps[n - 1].now - inps[k].now >= cfg.maxNoData
  {
    TimerIsRunStart(cfg, DataLack, inps, n);
    hide Run, LacksData;
    var since := Run(cfg, inps, n).noDataSince;
    assert Since(Run(cfg, inps, n), DataLack) == since;
    if k: nat :| IsRun(cfg, DataLack, inps, k, n) && inps[n - 1].now - inps[k].now >= cfg.maxNoData {
      assert Meets(cfg, DataLack, inps[n - 1]);
      var j: nat :| IsRun(cfg, DataLack, inps, j, n) && since == inps[j].now;
      RunIsUnique(cfg, DataLack, inps, j, k, n);
    }
  }

  lemma {:induction false} RunIsUnique(cfg: Config, c: Condition, inps: seq<Input>, j: nat, k: nat, n: nat)
    requires n <= |inps| && IsRun(cfg, c, inps, j, n) && IsRun(cfg, c, inps, k, n)
    ensures j == k
  {
    hide Meets;
  }

  // ----- degraded sensors -----

  /** An update that finds the sensors degraded never leaves the supervisor in Mapping or scanning. */
  lemma {:induction false} DegradedNeverMaps(cfg: Config, s: Sup, inp: Input)
    requires SensorsDegraded(cfg, inp)
    ensures Step(cfg, s, inp).state != Mapping && Step(cfg, s, inp).state != ActiveScanRecommended
  {
    hide SensorsDegraded, AddTime, Timer, LacksData, IsLowQuality, IsLowUpdate, AllocFailed, ScoreDegraded, ScoreLost;
  }

  ghost predicate ErrorsAccumulate(inps: seq<Input>) {
    forall i, j :: 0 <= i <= j < |inps| ==> inps[i].encoderErrors <= inps[j].encoderErrors
  }

  /** Encoder errors are cumulative, so once they reach a positive threshold Mapping is never held again. */
  lemma {:induction false} ErrorsEndMapping(cfg: Config, inps: seq<Input>, i: nat, n: nat)
    requires i < n <= |inps| && ErrorsAccumulate(inps) && 0 < cfg.encoderThreshold <= inps[i].encoderErrors
    ensures Run(cfg, inps, n).state != Mapping && Run(cfg, inps, n).state != ActiveScanRecommended
  {
    hide Step;
    DegradedNeverMaps(cfg, Run(cfg, inps, n - 1), inps[n - 1]);
  }

  // ----- accounted time -----

  /** Time between consecutive updates that began in the given state. */
  ghost function TimeIn(cfg: Config, inps: seq<Input>, state: State, n: nat): real
    requires n <= |inps|
  {
    if n <= 1 then 0.0
    else
      var dt := if Run(cfg, inps, n - 1).state == state then inps[n - 1].now - inps[n - 2].now else 0.0;
      TimeIn(cfg, inps, state, n - 1) + dt
  }

  ghost function Untimed(cfg: Config, inps: seq<Input>, n: nat): real
    requires n <= |inps|
  {
    TimeIn(cfg, inps, Init, n) + TimeIn(cfg, inps, SensorCheck, n) + TimeIn(cfg, inps, MappingReady, n)
  }

  lemma {:induction false} LastUpdateIs(cfg: Config, inps: seq<Input>, n: nat)
    requires n <= |inps|
    ensures Run(cfg, inps, n).lastUpdate == if n == 0 then -1.0 else inps[n - 1].now
  {
    hide Next, Timer, AddTime;
  }

  lemma {:induction false} StepClocks(cfg: Config, s: Sup, inp: Input)
    ensures Step(cfg, s, inp).seconds
            == if s.lastUpdate < 0.0 then s.seconds else AddTime(s.seconds, s.state, inp.now - s.lastUpdate)
  {
    hide Next, Timer, AddTime;
  }

  /** The four clocks show exactly the time spent in their states, and with the three states that have no
      clock they add up to the time between the first and the last update. */
  lemma {:induction false} TimeIsAccounted(cfg: Config, inps: seq<Input>, n: nat)
    requires 0 < n <= |inps| && TimesAscend(inps)
    ensures Run(cfg, inps, n).seconds == Seconds(TimeIn(cfg, inps, Mapping, n),
                                                 TimeIn(cfg, inps, ActiveScanRecommended, n),
                                                 TimeIn(cfg, inps, Degraded, n), TimeIn(cfg, inps, Lost, n))
    ensures var t := Run(cfg, inps, n).seconds;
            t.mapping + t.scan + t.degraded + t.lost + Untimed(cfg, inps, n) == inps[n - 1].now - inps[0].now
  {
    hide Step, Timer, Next;
    var before := Run(cfg, inps, n - 1);
    StepClocks(cfg, before, inps[n - 1]);
    LastUpdateIs(cfg, inps, n - 1);
    if n > 1 {
      TimeIsAccounted(cfg, inps, n - 1);
    }
  }
}
