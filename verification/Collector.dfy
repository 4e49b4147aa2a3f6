/** The sparse-scan collector (include/robot_slamd/active_scan/sparse_scan_collector.hpp): sessions of
    range samples sorted into bearing bins. */
module Collector {
  import opened Angles

  datatype State = Disabled | Idle | Collecting | Completed | Aborted | Cooldown

  datatype Sensor = Front | Left | Right | OtherSensor(name: string)

  datatype Config = Config(
    enabled: bool, onActiveScan: bool, onCommand: bool, onNatural: bool,
    minYawRate: real, maxYawRate: real, maxLinearSpeed: real,
    minRange: real, maxRange: real, minConfidence: int,
    binAngle: real, usefulAngle: real, completeAngle: real,
    timeout: real, maxGap: real, cooldown: real, maxSamples: int,
    requireRecommended: bool, requireMapping: bool, keepInvalid: bool,
    mounts: map<Sensor, real>) // mounting yaw of each sensor, in degrees
  {
    /** What validate_config demands of the sparse_scan section. */
    ghost predicate Valid() {
      && 0.0 < binAngle <= 90.0 && 0.0 <= usefulAngle <= completeAngle && maxSamples > 0
      && timeout > 0.0 && maxGap > 0.0 && cooldown >= 0.0
    }
  }

  datatype Tof = Tof(id: Sensor, mapUpdate: bool, hit: bool, confidence: int, range: real)

  /** `activeScan` and `command` are what the two scan snapshots contribute to the trigger. */
  datatype Input = Input(now: real, yaw: real, linearSpeed: real, yawRate: real, localizationValid: bool,
                         mappingAllowed: bool, recommended: bool, activeScan: bool, command: bool, tofs: seq<Tof>)

  datatype Sample = Sample(scanId: nat, t: real, id: Sensor, bearing: real, range: real, confidence: int, valid: bool,
                           hit: bool)

  datatype Bin = Bin(samples: nat, valids: nat, valid: bool, range: real, confidence: int)

  const EMPTY_BIN := Bin(0, 0, false, 0.0, 0)

  datatype Reason =
    | LocalizationInvalid | LinearSpeedTooHigh | YawRateTooHigh | YawRateTooLow | SessionTimeout | MaxGap
    | RequestCleared | RequestClearedUseful | NotRecommended | MappingNotAllowed | InCooldown | NotCollecting
    | MaxSamplesReached | CompleteTurn

  datatype Summary = Summary(scanId: nat, start: real, end: real, completed: bool, reason: Reason,
                             total: nat, valid: nat, invalid: nat, front: nat, left: nat, right: nat,
                             observed: real, validBins: nat, totalBins: nat, useful: bool, complete: bool)

  datatype Record = Record(summary: Summary, samples: seq<Sample>, bins: seq<Bin>)

  datatype Session = Session(start: real, lastValid: real, lastYaw: real, observed: real,
                             total: nat, valid: nat, invalid: nat, front: nat, left: nat, right: nat,
                             full: bool, bins: seq<Bin>, samples: seq<Sample>)

  datatype Stats = Stats(started: nat, completed: nat, aborted: nat, useful: nat, complete: nat)

  datatype Coll = Coll(state: State, cooldownUntil: real, scanId: nat, ses: Session,
                       pendingSamples: seq<Sample>, pendingBins: seq<Bin>, summaries: seq<Summary>,
                       records: seq<Record>,
                       stats: Stats)

  // ----- pure parts -----

  function BinCount(cfg: Config): (n: nat)
    requires cfg.binAngle > 0.0
    ensures n >= 1
  {
    var n := Ceil(360.0 / cfg.binAngle);
    if n < 1 then 1 else n
  }

  /** d brought into [0, 360) by whole turns. */
  function Norm360(d: real): (r: real)
    ensures 0.0 <= r < 360.0
  {
    d - 360.0 * (d / 360.0).Floor as real
  }

  method Norm360Loop(angle: real) returns (d: real)
    ensures d == Norm360(angle)
  {
    d := angle;
    ghost var turns := (angle / 360.0).Floor;
    ghost var k := 0;
    while d < 0.0
      invariant d == angle + 360.0 * k as real && 0 <= k && (k > 0 ==> k <= -turns)
      decreases -turns - k
    {
      d, k := d + 360.0, k + 1;
    }
    ghost var j := 0;
    while d >= 360.0
      invariant d == angle + 360.0 * (k - j) as real && 0 <= j && d >= 0.0 && (j > 0 ==> j - k <= turns)
      decreases turns + k - j
    {
      d, j := d - 360.0, j + 1;
    }
    assert k - j == -turns;
  }

  function Bearing(cfg: Config, yaw: real, id: Sensor): real {
    Norm360(Rad2Deg(WrapPi(yaw + Deg2Rad(if id in cfg.mounts then cfg.mounts[id] else 0.0))))
  }

  /** A quotient below another one rounds down to less than the other one rounds up to. */
  lemma {:induction false} QuotientsRound(d: real, e: real, a: real)
    requires a > 0.0 && 0.0 <= d < e
    ensures 0 <= (d / a).Floor < Ceil(e / a)
  {
    var q, p := d / a, e / a;
    assert q * a == d && p * a == e;
    assert (p - q) * a > 0.0;
    assert q < p;
  }

  /** The index that update_bin computes. It always exists, so the clamp after it never acts. */
  function BinIndex(cfg: Config, bearing: real): (i: int)
    requires cfg.binAngle > 0.0
    ensures 0 <= i < BinCount(cfg)
  {
    QuotientsRound(Norm360(bearing), 360.0, cfg.binAngle);
    (Norm360(bearing) / cfg.binAngle).Floor
  }

  predicate ValidHit(cfg: Config, t: Tof) {
    t.mapUpdate && t.hit && t.confidence >= cfg.minConfidence && cfg.minRange <= t.range <= cfg.maxRange
  }

  function YawRateDps(inp: Input): real { Rad2Deg(Abs(inp.yawRate)) }

  predicate Trigger(cfg: Config, inp: Input) {
    || (cfg.onActiveScan && inp.activeScan)
    || (cfg.onCommand && inp.command)
    || (cfg.onNatural && cfg.minYawRate <= YawRateDps(inp) <= cfg.maxYawRate)
  }

  predicate CoolingDown(s: Coll, now: real) { s.state == Idle && s.cooldownUntil >= 0.0 && now < s.cooldownUntil }

  function BlockedReason(cfg: Config, s: Coll, inp: Input): Reason {
    if !inp.localizationValid then LocalizationInvalid
    else if Abs(inp.linearSpeed) > cfg.maxLinearSpeed then LinearSpeedTooHigh
    else if YawRateDps(inp) < cfg.minYawRate then YawRateTooLow
    else if YawRateDps(inp) > cfg.maxYawRate then YawRateTooHigh
    else if cfg.requireRecommended && !inp.recommended then NotRecommended
    else if cfg.requireMapping && !inp.mappingAllowed then MappingNotAllowed
    else if CoolingDown(s, inp.now) then InCooldown
    else NotCollecting
  }

  lemma {:induction false} BlockedIgnoresSession(cfg: Config, s: Coll, ses: Session, inp: Input)
    ensures BlockedReason(cfg, s.(ses := ses), inp) == BlockedReason(cfg, s, inp)
  {}

  predicate GatesOk(cfg: Config, s: Coll, inp: Input) { BlockedReason(cfg, s, inp) == NotCollecting }

  function AddToBin(b: Bin, s: Sample): Bin {
    var counted := b.(samples := b.samples + 1);
    if !s.valid then counted
    else
      var more := counted.(valids := b.valids + 1);
      if !b.valid || s.confidence > b.confidence || (s.confidence == b.confidence && s.range < b.range) then
        more.(valid := true, range := s.range, confidence := s.confidence)
      else more
  }

  function SampleOf(cfg: Config, scanId: nat, inp: Input, t: Tof): Sample {
    Sample(scanId, inp.now, t.id, Bearing(cfg, inp.yaw, t.id), t.range, t.confidence, ValidHit(cfg, t), t.hit)
  }

  function Count(b: bool): nat { if b then 1 else 0 }

  function CountValid(bins: seq<Bin>): nat {
    if bins == [] then 0 else CountValid(bins[..|bins| - 1]) + Count(bins[|bins| - 1].valid)
  }

  // ----- what one update computes -----

  /** One sample joins the session. */
  function TakeSample(cfg: Config, s: Session, now: real, x: Sample): (r: Session)
    requires cfg.binAngle > 0.0 && |s.bins| == BinCount(cfg)
    ensures |r.bins| == BinCount(cfg) && r.samples == s.samples + [x]
  {
    var idx := BinIndex(cfg, x.bearing);
    s.(samples := s.samples + [x], bins := s.bins[idx := AddToBin(s.bins[idx], x)], total := s.total + 1,
       valid := s.valid + Count(x.valid), invalid := s.invalid + Count(!x.valid),
       lastValid := if x.valid then now else s.lastValid,
       front := s.front + Count(x.valid && x.id == Front), left := s.left + Count(x.valid && x.id == Left),
       right := s.right + Count(x.valid && x.id == Right))
  }

  predicate Keeps(cfg: Config, t: Tof) { ValidHit(cfg, t) || cfg.keepInvalid }

  /** The loop of collect_samples from the i-th reading on. */
  function CollectFrom(cfg: Config, scanId: nat, s: Session, inp: Input, i: nat): (r: Session)
    requires cfg.binAngle > 0.0 && |s.bins| == BinCount(cfg)
    ensures |r.bins| == BinCount(cfg) && s.samples <= r.samples
    decreases |inp.tofs| - i
  {
    if i >= |inp.tofs| then s
    else if s.total >= cfg.maxSamples then s.(full := true)
    else if !Keeps(cfg, inp.tofs[i]) then CollectFrom(cfg, scanId, s, inp, i + 1)
    else CollectFrom(cfg, scanId, TakeSample(cfg, s, inp.now, SampleOf(cfg, scanId, inp, inp.tofs[i])), inp, i + 1)
  }

  function ResetRuntime(s: Session, yaw: real): (r: Session)
    ensures r.bins == s.bins
  {
    Session(s.start, -1.0, yaw, 0.0, 0, 0, 0, 0, 0, 0, false, s.bins, [])
  }

  function FreshBins(cfg: Config): (b: seq<Bin>)
    requires cfg.binAngle > 0.0
    ensures |b| == BinCount(cfg)
  {
    seq(BinCount(cfg), _ => EMPTY_BIN)
  }

  function Opened(cfg: Config, s: Session, inp: Input): Session
    requires cfg.binAngle > 0.0
  {
    ResetRuntime(s, inp.yaw).(bins := FreshBins(cfg), start := inp.now, lastValid := inp.now)
  }

  function SummaryOf(cfg: Config, scanId: nat, s: Session, now: real, completed: bool, reason: Reason): Summary {
    Summary(scanId, s.start, now, completed, reason, s.total, s.valid, s.invalid, s.front, s.left, s.right,
            s.observed, CountValid(s.bins), |s.bins|, s.observed >= cfg.usefulAngle, s.observed >= cfg.completeAngle)
  }

  function StatsAfter(t: Stats, x: Summary): Stats {
    Stats(t.started, t.completed + Count(x.completed), t.aborted + Count(!x.completed), t.useful + Count(x.useful),
          t.complete + Count(x.complete))
  }

  function Finalize(cfg: Config, s: Coll, now: real, completed: bool, reason: Reason): Coll {
    var summary := SummaryOf(cfg, s.scanId, s.ses, now, completed, reason);
    s.(state := if completed then Completed else Aborted, cooldownUntil := now + cfg.cooldown,
       pendingBins := s.pendingBins + s.ses.bins,
       summaries := s.summaries + [summary], records := s.records + [Record(summary, s.ses.samples, s.ses.bins)],
       stats := StatsAfter(s.stats, summary))
  }

  /** The readings of one update are collected. */
  function Collected(cfg: Config, s: Coll, inp: Input): Coll
    requires cfg.binAngle > 0.0 && |s.ses.bins| == BinCount(cfg)
  {
    var ses := CollectFrom(cfg, s.scanId, s.ses, inp, 0);
    s.(ses := ses, pendingSamples := s.pendingSamples + ses.samples[|s.ses.samples|..])
  }

  /** Collecting, then ending the session if that filled or completed it. */
  function CollectAndMaybeFinalize(cfg: Config, s: Coll, inp: Input): Coll
    requires cfg.binAngle > 0.0 && |s.ses.bins| == BinCount(cfg)
  {
    var s1 := Collected(cfg, s, inp);
    if s1.ses.full then Finalize(cfg, s1, inp.now, s1.ses.observed >= cfg.usefulAngle, MaxSamplesReached)
    else if s1.ses.observed >= cfg.completeAngle then Finalize(cfg, s1, inp.now, true, CompleteTurn)
    else s1
  }

  function Rotated(s: Session, yaw: real): (r: Session)
    ensures r.bins == s.bins
  {
    s.(observed := s.observed + Rad2Deg(Abs(WrapPi(yaw - s.lastYaw))), lastYaw := yaw)
  }

  /** Why a running session has to stop before it collects anything in this update. */
  function StopReason(cfg: Config, s: Coll, inp: Input): (r: (bool, bool, Reason)) {
    var trigger, gates := Trigger(cfg, inp), GatesOk(cfg, s, inp);
    if !inp.localizationValid then (true, false, LocalizationInvalid)
    else if Abs(inp.linearSpeed) > cfg.maxLinearSpeed then (true, false, LinearSpeedTooHigh)
    else if YawRateDps(inp) > cfg.maxYawRate then (true, false, YawRateTooHigh)
    else if inp.now - s.ses.start > cfg.timeout then (true, false, SessionTimeout)
    else if s.ses.lastValid >= 0.0 && inp.now - s.ses.lastValid > cfg.maxGap then (true, false, MaxGap)
    else if !trigger || !gates then
      if s.ses.observed >= cfg.usefulAngle then (true, true, RequestClearedUseful)
      else (true, false, if trigger then BlockedReason(cfg, s, inp) else RequestCleared)
    else (false, false, NotCollecting)
  }

  predicate Opens(cfg: Config, s: Coll, inp: Input) {
    cfg.enabled && s.state == Idle && Trigger(cfg, inp) && GatesOk(cfg, s, inp)
  }

  /** The state once a session has been opened. */
  function Begun(cfg: Config, s: Coll, inp: Input): Coll
    requires cfg.binAngle > 0.0
  {
    s.(state := Collecting, scanId := s.scanId + 1, ses := Opened(cfg, s.ses, inp),
       stats := s.stats.(started := s.stats.started + 1))
  }

  /** An update of a running session whose rotation has been added. */
  function Continued(cfg: Config, s: Coll, inp: Input): (n: Coll)
    requires cfg.Valid() && |s.ses.bins| == BinCount(cfg)
    ensures |n.ses.bins| == BinCount(cfg)
  {
    var (stop, completed, reason) := StopReason(cfg, s, inp);
    if stop then Finalize(cfg, s, inp.now, completed, reason) else CollectAndMaybeFinalize(cfg, s, inp)
  }

  function Updated(cfg: Config, s: Coll, inp: Input): (n: Coll)
    requires cfg.Valid() && |s.ses.bins| == BinCount(cfg)
    ensures |n.ses.bins| == BinCount(cfg)
  {
    if !cfg.enabled then s.(state := Disabled)
    else match s.state
      case Completed | Aborted => s.(state := Cooldown)
      case Cooldown =>
        if inp.now >= s.cooldownUntil then s.(state := Idle, ses := ResetRuntime(s.ses, inp.yaw)) else s
      case Idle =>
        if Opens(cfg, s, inp) then CollectAndMaybeFinalize(cfg, Begun(cfg, s, inp), inp) else s
      case Collecting => Continued(cfg, s.(ses := Rotated(s.ses, inp.yaw)), inp)
      case Disabled => s
  }

  function InitColl(cfg: Config): Coll
    requires cfg.binAngle > 0.0
  {
    Coll(if cfg.enabled then Idle else Disabled, -1.0, 0,
         Session(0.0, -1.0, 0.0, 0.0, 0, 0, 0, 0, 0, 0, false, FreshBins(cfg), []), [], [], [], [],
         Stats(0, 0, 0, 0, 0))
  }

  // ----- the object -----

  class SparseScanCollector {
    const cfg: Config
    var state: State
    var cooldownUntil: real
    var scanId: nat
    var ses: Session // the session_* fields, bins_ and current_session_samples_
    var pendingSamples: seq<Sample>
    var pendingBins: seq<Bin>
    var summaries: seq<Summary>
    var records: seq<Record>
    var stats: Stats

    function View(): Coll
      reads this
    {
      Coll(state, cooldownUntil, scanId, ses, pendingSamples, pendingBins, summaries, records, stats)
    }

    ghost predicate Valid()
      reads this
    {
      cfg.Valid() && |ses.bins| == BinCount(cfg)
    }

    constructor (cfg: Config)
      requires cfg.Valid()
      ensures Valid() && this.cfg == cfg && View() == InitColl(cfg)
    {
      this.cfg := cfg;
      state := if cfg.enabled then Idle else Disabled;
      cooldownUntil, scanId := -1.0, 0;
      ses := Session(0.0, -1.0, 0.0, 0.0, 0, 0, 0, 0, 0, 0, false, FreshBins(cfg), []);
      pendingSamples, pendingBins, summaries, records, stats := [], [], [], [], Stats(0, 0, 0, 0, 0);
    }

    method UpdateBin(x: Sample)
      requires Valid()
      modifies this`ses
      ensures Valid()
      ensures var i := BinIndex(cfg, x.bearing);
              ses == old(ses).(bins := old(ses).bins[i := AddToBin(old(ses).bins[i], x)])
    {
      var idx := (Norm360(x.bearing) / cfg.binAngle).Floor;
      assert idx == BinIndex(cfg, x.bearing);
      if idx < 0 || idx >= |ses.bins| {
        assert false; // the clamp is never needed
      }
      var b := ses.bins[idx];
      b := b.(samples := b.samples + 1);
      if x.valid {
        b := b.(valids := b.valids + 1);
        if !b.valid || x.confidence > b.confidence || (x.confidence == b.confidence && x.range < b.range) {
          b := b.(valid := true, range := x.range, confidence := x.confidence);
        }
      }
      ses := ses.(bins := ses.bins[idx := b]);
    }

    method CollectSamples(inp: Input)
      requires Valid()
      modifies this`ses, this`pendingSamples
      ensures Valid()
      ensures ses == CollectFrom(cfg, scanId, old(ses), inp, 0)
      ensures old(ses).samples <= ses.samples
      ensures pendingSamples == old(pendingSamples) + ses.samples[|old(ses).samples|..]
    {
      hide TakeSample, SampleOf, ValidHit, BinCount;
      var i := 0;
      while i < |inp.tofs|
        invariant 0 <= i <= |inp.tofs| && Valid() && old(ses).samples <= ses.samples
        invariant CollectFrom(cfg, scanId, old(ses), inp, 0) == CollectFrom(cfg, scanId, ses, inp, i)
        invariant pendingSamples == old(pendingSamples) + ses.samples[|old(ses).samples|..]
      {
        if ses.total >= cfg.maxSamples {
          ses := ses.(full := true);
          return;
        }
        var t := inp.tofs[i];
        var valid := ValidHit(cfg, t);
        i := i + 1;
        if !valid && !cfg.keepInvalid { continue; }
        Keep(inp.now, SampleOf(cfg, scanId, inp, t));
      }
    }

    method Keep(now: real, x: Sample)
      requires Valid()
      modifies this`ses, this`pendingSamples
      ensures Valid() && ses == TakeSample(cfg, old(ses), now, x)
      ensures pendingSamples == old(pendingSamples) + [x]
    {
      hide BinIndex, AddToBin, BinCount;
      pendingSamples := pendingSamples + [x];
      UpdateBin(x);
      if x.valid {
        ses := ses.(valid := ses.valid + 1, lastValid := now);
        if x.id == Front { ses := ses.(front := ses.front + 1); }
        else if x.id == Left { ses := ses.(left := ses.left + 1); }
        else if x.id == Right { ses := ses.(right := ses.right + 1); }
      } else {
        ses := ses.(invalid := ses.invalid + 1);
      }
      ses := ses.(total := ses.total + 1, samples := ses.samples + [x]);
    }

    method ValidBinCount() returns (n: nat)
      ensures n == CountValid(ses.bins)
    {
      n := 0;
      for i := 0 to |ses.bins|
        invariant n == CountValid(ses.bins[..i])
      {
        assert ses.bins[..i + 1][..i] == ses.bins[..i];
        if ses.bins[i].valid { n := n + 1; }
      }
      assert ses.bins[..|ses.bins|] == ses.bins;
    }

    method MakeSummary(now: real, completed: bool, reason: Reason) returns (summary: Summary)
      ensures summary == SummaryOf(cfg, scanId, ses, now, completed, reason)
    {
      hide CountValid;
      var validBins := ValidBinCount();
      summary := Summary(scanId, ses.start, now, completed, reason, ses.total, ses.valid, ses.invalid,
                         ses.front, ses.left, ses.right, ses.observed, validBins, |ses.bins|,
                         ses.observed >= cfg.usefulAngle, ses.observed >= cfg.completeAngle);
    }

    method CountSession(x: Summary)
      modifies this`stats
      ensures stats == StatsAfter(old(stats), x)
    {
      if x.completed { stats := stats.(completed := stats.completed + 1); }
      else { stats := stats.(aborted := stats.aborted + 1); }
      if x.useful { stats := stats.(useful := stats.useful + 1); }
      if x.complete { stats := stats.(complete := stats.complete + 1); }
    }

    method FinalizeSession(now: real, completed: bool, reason: Reason)
      requires Valid()
      modifies this
      ensures Valid() && View() == Finalize(cfg, old(View()), now, completed, reason)
    {
      hide SummaryOf, StatsAfter, BinCount;
      pendingBins := pendingBins + ses.bins;
      var summary := MakeSummary(now, completed, reason);
      summaries := summaries + [summary];
      records := records + [Record(summary, ses.samples, ses.bins)];
      CountSession(summary);
      state := if completed then Completed else Aborted;
      cooldownUntil := now + cfg.cooldown;
    }

    method CollectThenFinalize(inp: Input)
      requires Valid()
      modifies this
      ensures Valid() && View() == CollectAndMaybeFinalize(cfg, old(View()), inp)
    {
      CollectSamples(inp);
      if ses.full {
        FinalizeSession(inp.now, ses.observed >= cfg.usefulAngle, MaxSamplesReached);
      } else if ses.observed >= cfg.completeAngle {
        FinalizeSession(inp.now, true, CompleteTurn);
      }
    }

    method StartSession(inp: Input)
      requires Valid()
      modifies this
      ensures Valid() && View() == Begun(cfg, old(View()), inp)
    {
      scanId := scanId + 1;
      ResetSession(inp.yaw);
      ses := ses.(bins := FreshBins(cfg));
      ses := ses.(start := inp.now, lastValid := inp.now);
      state := Collecting;
      stats := stats.(started := stats.started + 1);
    }

    method ResetSession(yaw: real)
      modifies this`ses
      ensures ses == ResetRuntime(old(ses), yaw)
    {
      ses := Session(ses.start, -1.0, yaw, 0.0, 0, 0, 0, 0, 0, 0, false, ses.bins, []);
    }

    method AccumulateYaw(yaw: real)
      modifies this`ses
      ensures ses == Rotated(old(ses), yaw)
    {
      ses := ses.(observed := ses.observed + Rad2Deg(Abs(WrapPi(yaw - ses.lastYaw))), lastYaw := yaw);
    }

    method Update(inp: Input)
      requires Valid()
      modifies this
      ensures Valid() && View() == Updated(cfg, old(View()), inp)
    {
      hide Continued, CollectAndMaybeFinalize, Begun, BinCount, Trigger, BlockedReason;
      if !cfg.enabled {
        state := Disabled;
        return;
      }
      var trigger, gates := Trigger(cfg, inp), GatesOk(cfg, View(), inp);
      var gateReason := BlockedReason(cfg, View(), inp);
      if state == Completed || state == Aborted {
        state := Cooldown;
      } else if state == Cooldown {
        if inp.now >= cooldownUntil {
          state := Idle;
          ResetSession(inp.yaw);
        }
      } else if state == Idle {
        if trigger && gates {
          StartSession(inp);
          CollectThenFinalize(inp);
        }
      } else if state == Collecting {
        AccumulateYaw(inp.yaw);
        BlockedIgnoresSession(cfg, old(View()), ses, inp);
        ContinueSession(inp, trigger, gates, gateReason);
      }
    }

    method ContinueSession(inp: Input, trigger: bool, gates: bool, gateReason: Reason)
      requires Valid()
      requires trigger == Trigger(cfg, inp) && gateReason == BlockedReason(cfg, View(), inp)
      requires gates == (gateReason == NotCollecting)
      modifies this
      ensures Valid() && View() == Continued(cfg, old(View()), inp)
    {
      hide Finalize, CollectAndMaybeFinalize, BinCount, Trigger, BlockedReason, YawRateDps, Abs;
      if !inp.localizationValid {
        FinalizeSession(inp.now, false, LocalizationInvalid);
      } else if Abs(inp.linearSpeed) > cfg.maxLinearSpeed {
        FinalizeSession(inp.now, false, LinearSpeedTooHigh);
      } else if YawRateDps(inp) > cfg.maxYawRate {
        FinalizeSession(inp.now, false, YawRateTooHigh);
      } else if inp.now - ses.start > cfg.timeout {
        FinalizeSession(inp.now, false, SessionTimeout);
      } else if ses.lastValid >= 0.0 && inp.now - ses.lastValid > cfg.maxGap {
        FinalizeSession(inp.now, false, MaxGap);
      } else if !trigger || !gates {
        if ses.observed >= cfg.usefulAngle {
          FinalizeSession(inp.now, true, RequestClearedUseful);
        } else {
          FinalizeSession(inp.now, false, if trigger then gateReason else RequestCleared);
        }
      } else {
        CollectThenFinalize(inp);
      }
    }

    method DrainSummaries() returns (out: seq<Summary>)
      modifies this`summaries
      ensures out == old(summaries) && summaries == []
    {
      out := summaries;
      summaries := [];
    }

    method DrainRecords() returns (out: seq<Record>)
      modifies this`records
      ensures out == old(records) && records == []
    {
      out := records;
      records := [];
    }

    method DrainSamples() returns (out: seq<Sample>)
      modifies this`pendingSamples
      ensures out == old(pendingSamples) && pendingSamples == []
    {
      out := pendingSamples;
      pendingSamples := [];
    }

    method DrainBins() returns (out: seq<Bin>)
      modifies this`pendingBins
      ensures out == old(pendingBins) && pendingBins == []
    {
      out := pendingBins;
      pendingBins := [];
    }
  }
}
