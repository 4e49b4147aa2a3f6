/** What takes the mapping supervisor to each state, told from the state entered and from the history of what was
    reported to it (include/robot_slamd/mapping/mapping_supervisor.hpp). */
module SupervisorTransitions {
  import opened Supervisor

  // ----- what an update reports -----

  ghost predicate HasData(inp: Input) { inp.samples > 0 && inp.level != NoData }

  /** A count of errors has come up to its threshold, where there is one. */
  ghost predicate AnyFailure(cfg: Config, inp: Input) {
    || 0 < cfg.encoderThreshold <= inp.encoderErrors || 0 < cfg.imuThreshold <= inp.imuErrors
    || 0 < cfg.tofThreshold <= inp.unhealthyTofs || inp.allocFailures + inp.mapFailures > 0
  }

  ghost predicate IsBad(cfg: Config, inp: Input) {
    AnyFailure(cfg, inp) || (HasData(inp) && cfg.degradedScore > inp.score)
  }

  ghost predicate IsLost(cfg: Config, inp: Input) { HasData(inp) && cfg.lostScore >= inp.score }

  ghost predicate IsGood(cfg: Config, inp: Input) {
    && HasData(inp) && cfg.minGood <= inp.score && !inp.recommended && (inp.routes >= 2 || !cfg.twoRoutes)
    && !AnyFailure(cfg, inp)
  }

  ghost predicate IsAlive(inp: Input) { inp.samples + inp.localizations > 0 }

  ghost predicate WantsScan(cfg: Config, inp: Input) {
    inp.recommended || inp.level == Low || cfg.minGood > inp.score || (cfg.twoRoutes && inp.routes <= 1)
  }

  ghost predicate IsSlow(cfg: Config, inp: Input) { 0.0 < cfg.minUpdateRate && cfg.minUpdateRate > inp.updateRate }

  // ----- what the updates so far report -----

  ghost predicate Reports(cfg: Config, c: Condition, inp: Input) {
    match c
    case DataLack => !HasData(inp)
    case QualityLow => WantsScan(cfg, inp)
    case UpdateLow => IsSlow(cfg, inp)
  }

  /** Every update from k on reported the condition. */
  ghost predicate ReportsFrom(cfg: Config, c: Condition, inps: seq<Input>, k: nat, n: nat)
    requires n <= |inps|
  {
    k < n && forall j :: k <= j < n ==> Reports(cfg, c, inps[j])
  }

  /** The condition has been reported without a break for this long. */
  ghost predicate Lasts(cfg: Config, c: Condition, inps: seq<Input>, n: nat, limit: real)
    requires 0 < n <= |inps|
  {
    exists k: nat :: ReportsFrom(cfg, c, inps, k, n) && inps[n - 1].now >= inps[k].now + limit
  }

  lemma {:induction false} ConditionMeans(cfg: Config, c: Condition, inp: Input)
    ensures Meets(cfg, c, inp) <==> Reports(cfg, c, inp)
  {}

  lemma {:induction false} TimerMeans(cfg: Config, c: Condition, inps: seq<Input>, n: nat, limit: real)
    requires 0 < n <= |inps| && TimesAscend(inps)
    ensures Elapsed(Since(Run(cfg, inps, n), c), inps[n - 1].now, limit) <==> Lasts(cfg, c, inps, n, limit)
  {
    TimerIsRunStart(cfg, c, inps, n);
    forall inp ensures Meets(cfg, c, inp) <==> Reports(cfg, c, inp) { ConditionMeans(cfg, c, inp); }
    hide Run, Since, Meets, Reports;
    if Meets(cfg, c, inps[n - 1]) {
      var k: nat :| IsRun(cfg, c, inps, k, n) && Since(Run(cfg, inps, n), c) == inps[k].now;
      assert ReportsFrom(cfg, c, inps, k, n);
      if j: nat :| ReportsFrom(cfg, c, inps, j, n) && inps[n - 1].now >= inps[j].now + limit {
        assert k <= j;
      }
    }
  }

  // ----- the transitions -----

  /** What takes the supervisor to this state, or keeps it there. `noData` says that data has been wanting for too
      long, `scanDue` that a scan has been wanted or updates have been slow for too long. */
  ghost predicate Takes(cfg: Config, p: Sup, inp: Input, noData: bool, scanDue: bool, to: State) {
    var stay := inp.now - p.entered;
    var maps, falls := p.state == Mapping || p.state == ActiveScanRecommended, IsLost(cfg, inp) || noData;
    var expires := p.state == Degraded && stay >= cfg.maxDegraded;
    var works := !falls && !expires;
    match to
    case Init => p.state == Init && inp.now < cfg.startupGrace && !IsAlive(inp)
    case SensorCheck =>
      || (p.state == Init && (inp.now >= cfg.startupGrace || IsAlive(inp)))
      || (p.state == SensorCheck && !noData && !IsAlive(inp))
      || (p.state == Lost && HasData(inp) && !IsLost(cfg, inp) && inp.localizations > 0)
    case MappingReady =>
      || (p.state == SensorCheck && !noData && IsAlive(inp))
      || (p.state == MappingReady && !noData && !IsBad(cfg, inp) && (stay < cfg.minReadyTime || !IsGood(cfg, inp)))
    case Mapping =>
      || (p.state == MappingReady && !noData && !IsBad(cfg, inp) && stay >= cfg.minReadyTime && IsGood(cfg, inp))
      || (p.state == Mapping && works && !IsBad(cfg, inp) && !scanDue)
      || (p.state == ActiveScanRecommended && works && !IsBad(cfg, inp) && IsGood(cfg, inp))
      || (p.state == Degraded && works && IsGood(cfg, inp))
    case ActiveScanRecommended =>
      || (p.state == Mapping && works && !IsBad(cfg, inp) && scanDue)
      || (p.state == ActiveScanRecommended && works && !IsBad(cfg, inp) && !IsGood(cfg, inp))
    case Degraded =>
      || (p.state == SensorCheck && noData) || (p.state == MappingReady && (noData || IsBad(cfg, inp)))
      || (maps && works && IsBad(cfg, inp)) || (p.state == Degraded && works && !IsGood(cfg, inp))
    case Lost =>
      || ((maps || p.state == Degraded) && (falls || expires))
      || (p.state == Lost && (!HasData(inp) || IsLost(cfg, inp) || inp.localizations == 0))
  }

  lemma {:induction false} NextMeans(cfg: Config, p: Sup, inp: Input, noData: bool, scanDue: bool)
    ensures Takes(cfg, p, inp, noData, scanDue, Next(cfg, p.state, inp.now - p.entered, noData, scanDue, inp))
  {
    InputMeans(cfg, inp);
    hide LacksData, SensorsDegraded, AllocFailed, ScoreDegraded, ScoreLost, RecoveredGood, HasData, IsBad, IsLost,
      IsGood;
  }

  lemma {:induction false} InputMeans(cfg: Config, inp: Input)
    ensures LacksData(inp) <==> !HasData(inp)
    ensures SensorsDegraded(cfg, inp) || AllocFailed(inp) || ScoreDegraded(cfg, inp) <==> IsBad(cfg, inp)
    ensures ScoreLost(cfg, inp) <==> IsLost(cfg, inp)
    ensures HasData(inp) && inp.score > cfg.lostScore <==> HasData(inp) && !IsLost(cfg, inp)
    ensures RecoveredGood(cfg, inp) <==> IsGood(cfg, inp)
  {}

  /** An update leads to one state only. */
  lemma {:induction false} TakesOne(cfg: Config, p: Sup, inp: Input, noData: bool, scanDue: bool, to: State,
                                    other: State)
    requires Takes(cfg, p, inp, noData, scanDue, to) && Takes(cfg, p, inp, noData, scanDue, other)
    ensures to == other
  {
    hide HasData, IsBad, IsLost, IsGood, IsAlive;
  }

  lemma {:induction false} StepNext(cfg: Config, p: Sup, inp: Input, noData: bool, scanDue: bool)
    requires p.lastUpdate >= 0.0 || p.state == Init
    requires var n := Step(cfg, p, inp);
             && noData == Elapsed(Since(n, DataLack), inp.now, cfg.maxNoData)
             && scanDue == (Elapsed(Since(n, QualityLow), inp.now, cfg.afterLowQuality)
                            || Elapsed(Since(n, UpdateLow), inp.now, cfg.afterLowUpdate))
    ensures var n := Step(cfg, p, inp);
            && n.state == Next(cfg, p.state, inp.now - p.entered, noData, scanDue, inp)
            && n.changes == p.changes + (if n.state != p.state then 1 else 0)
            && (p.lastUpdate >= 0.0 ==> n.entered == if n.state != p.state then inp.now else p.entered)
  {
    hide Timer, LacksData, IsLowQuality, IsLowUpdate, AddTime, Elapsed, SensorsDegraded, AllocFailed, ScoreDegraded,
      ScoreLost, RecoveredGood;
  }

  /** Over every run: an update leads to a state exactly when the ground for it is given, where the timeouts are told
      from the whole history. */
  lemma {:induction false} StateIff(cfg: Config, inps: seq<Input>, n: nat, to: State)
    requires 0 < n <= |inps| && TimesAscend(inps)
    ensures Run(cfg, inps, n).state == to <==>
            Takes(cfg, Run(cfg, inps, n - 1), inps[n - 1], Lasts(cfg, DataLack, inps, n, cfg.maxNoData),
                  Lasts(cfg, QualityLow, inps, n, cfg.afterLowQuality)
                  || Lasts(cfg, UpdateLow, inps, n, cfg.afterLowUpdate), to)
  {
    var p, inp := Run(cfg, inps, n - 1), inps[n - 1];
    TimerMeans(cfg, DataLack, inps, n, cfg.maxNoData);
    TimerMeans(cfg, QualityLow, inps, n, cfg.afterLowQuality);
    TimerMeans(cfg, UpdateLow, inps, n, cfg.afterLowUpdate);
    var noData := Lasts(cfg, DataLack, inps, n, cfg.maxNoData);
    var scanDue := Lasts(cfg, QualityLow, inps, n, cfg.afterLowQuality) ||
      Lasts(cfg, UpdateLow, inps, n, cfg.afterLowUpdate);
    hide Lasts, Takes, Timer, LacksData, IsLowQuality, IsLowUpdate, AddTime;
    LastUpdateIs(cfg, inps, n - 1);
    StepNext(cfg, p, inp, noData, scanDue);
    NextMeans(cfg, p, inp, noData, scanDue);
    if Takes(cfg, p, inp, noData, scanDue, to) {
      TakesOne(cfg, p, inp, noData, scanDue, to, Run(cfg, inps, n).state);
    }
  }

  // ----- since when a state has been held -----

  /** Update k led to the state that is still held after update n - 1. */
  ghost predicate HeldSince(cfg: Config, inps: seq<Input>, k: nat, n: nat)
    requires n <= |inps|
  {
    && k < n && (forall j: nat :: k < j <= n ==> Run(cfg, inps, j).state == Run(cfg, inps, n).state)
    && (k > 0 ==> Run(cfg, inps, k).state != Run(cfg, inps, n).state)
  }

  ghost function Changes(cfg: Config, inps: seq<Input>, n: nat): nat
    requires n <= |inps|
  {
    if n == 0 then 0
    else
      Changes(cfg, inps, n - 1) + (if Run(cfg, inps, n).state != Run(cfg, inps, n - 1).state then 1 else 0)
  }

  lemma {:induction false} StepEnters(cfg: Config, p: Sup, inp: Input)
    ensures var n := Step(cfg, p, inp);
            && n.changes == p.changes + (if n.state != p.state then 1 else 0)
            && n.entered == (if n.state != p.state || p.lastUpdate < 0.0 then inp.now else p.entered)
  {
    hide Timer, LacksData, IsLowQuality, IsLowUpdate, AddTime, Elapsed, Next;
  }

  lemma {:induction false} ChangesAreCounted(cfg: Config, inps: seq<Input>, n: nat)
    requires n <= |inps|
    ensures Run(cfg, inps, n).changes == Changes(cfg, inps, n)
  {
    hide Step;
    if n > 0 {
      StepEnters(cfg, Run(cfg, inps, n - 1), inps[n - 1]);
      ChangesAreCounted(cfg, inps, n - 1);
    }
  }

  lemma {:induction false} EntryOfStep(cfg: Config, inps: seq<Input>, n: nat)
    requires 0 < n <= |inps| && TimesAscend(inps)
    ensures var p, s := Run(cfg, inps, n - 1), Run(cfg, inps, n);
            s.entered == if n == 1 || s.state != p.state then inps[n - 1].now else p.entered
  {
    hide Step;
    StepEnters(cfg, Run(cfg, inps, n - 1), inps[n - 1]);
    LastUpdateIs(cfg, inps, n - 1);
  }

  /** The supervisor knows since when it has held its state. */
  lemma {:induction false} StateIsDated(cfg: Config, inps: seq<Input>, n: nat) returns (k: nat)
    requires 0 < n <= |inps| && TimesAscend(inps)
    ensures HeldSince(cfg, inps, k, n) && k < n && Run(cfg, inps, n).entered == inps[k].now
  {
    hide *;
    EntryOfStep(cfg, inps, n);
    if n == 1 || Run(cfg, inps, n).state != Run(cfg, inps, n - 1).state {
      HeldNow(cfg, inps, n);
      k := n - 1;
    } else {
      k := StateIsDated(cfg, inps, n - 1);
      HeldOn(cfg, inps, k, n);
    }
  }

  lemma {:induction false} HeldNow(cfg: Config, inps: seq<Input>, n: nat)
    requires 0 < n <= |inps| && (n == 1 || Run(cfg, inps, n).state != Run(cfg, inps, n - 1).state)
    ensures HeldSince(cfg, inps, n - 1, n)
  {
    hide Run;
  }

  lemma {:induction false} HeldOn(cfg: Config, inps: seq<Input>, k: nat, n: nat)
    requires 0 < n <= |inps| && HeldSince(cfg, inps, k, n - 1)
    requires Run(cfg, inps, n).state == Run(cfg, inps, n - 1).state
    ensures HeldSince(cfg, inps, k, n)
  {
    hide Run;
  }
}
