/** The gate that turns match summaries into at most one suggestion per cooldown period
    (include/robot_slamd/active_scan/yaw_correction_gate.hpp). */
module YawGate {
  import opened Angles
  import opened YawTypes

  datatype GateState = Disabled | Idle | Candidate | ConsistencyCheck | WouldApply | Rejected | Cooldown

  datatype GateStats = GateStats(seen: nat, wouldApply: nat, rejected: nat, consistencyRejects: nat, feedbacks: nat)

  /** The value of a gate object. */
  datatype Gate = Gate(
    state: GateState, cooldownUntil: real, lastId: nat, lastT: real, appliedId: nat, appliedT: real,
    window: seq<real>, latest: GateSnapshot, stats: GateStats)

  const NO_SNAPSHOT := GateSnapshot(0.0, GateIdle, false, false, false, 0.0, 0.0, 0.0, 0, 0.0, false, false, 0, 0.0)

  function InitGate(cfg: YawConfig): Gate {
    var (state, reason) := if cfg.GateEnabled() then (Idle, GateIdle) else (Disabled, GateDisabled);
    Gate(state, -1.0, 0, -1.0, 0, -1.0, [], NO_SNAPSHOT.(reason := reason), GateStats(0, 0, 0, 0, 0))
  }

  // ----- const computations -----

  predicate IsNew(g: Gate, m: Match) {
    && m.attempted
    && !(m.scanId == g.appliedId && SameMoment(m.t, g.appliedT))
    && (m.scanId != g.lastId || !SameMoment(m.t, g.lastT))
  }

  function MatchEvidence(cfg: YawConfig, m: Match): Option<GateReason> {
    if !cfg.allowMatchEvidence then Some(MatchIncomplete)
    else if cfg.requireAttempted && !m.attempted then Some(MatchIncomplete)
    else if !m.usable then Some(MatchIncomplete)
    else if m.observedYaw < cfg.minObservedYaw then Some(CoverageTooLow)
    else if m.samples < cfg.minSamples then Some(SamplesTooLow)
    else if m.bins < cfg.minBins then Some(BinsTooLow)
    else if m.binRatio < cfg.minBinRatio then Some(BinRatioTooLow)
    else None
  }

  predicate ScanEvidenceOk(cfg: YawConfig, inp: GateInput) {
    match cfg.source
    case ActiveScanOnly => inp.env.scanEvidence
    case YawMatchOnly => MatchEvidence(cfg, inp.m).None?
    case Either => inp.env.scanEvidence || MatchEvidence(cfg, inp.m).None?
  }

  function ScanEvidence(cfg: YawConfig, inp: GateInput): Option<GateReason> {
    match cfg.source
    case ActiveScanOnly => if inp.env.scanEvidence then None else Some(ActiveScanIncomplete)
    case YawMatchOnly => MatchEvidence(cfg, inp.m)
    case Either =>
      if inp.env.scanEvidence || MatchEvidence(cfg, inp.m).None? then None
      else MatchEvidence(cfg, inp.m)
  }

  function YawRateDps(rate: real): real { Rad2Deg(Abs(rate)) }

  /** The first precheck that fails, if any. */
  function Precheck(cfg: YawConfig, inp: GateInput): Option<GateReason> {
    var m := inp.m;
    if cfg.requireUsable && !m.usable then Some(MatchNotUsable)
    else if !m.reasonOk then Some(MatchReasonNotOk)
    else if m.bestScore < cfg.minBestScore then Some(LowBestScore)
    else if m.margin < cfg.minMargin then Some(LowScoreMargin)
    else if m.inlierRatio < cfg.minInlierRatio then Some(LowInlierRatio)
    else if m.curveFlat || m.flatness > cfg.maxFlatness then Some(CurveFlat)
    else if m.multimodal then Some(Multimodal)
    else if Abs(m.delta) > cfg.maxCandidate then Some(CandidateTooLarge)
    else if Abs(m.delta) < cfg.minCandidate then Some(CandidateTooSmall)
    else if cfg.requireLowSpeed && Abs(inp.linearSpeed) > cfg.maxLinearSpeed then Some(RobotMoving)
    else if cfg.requireLowSpeed && YawRateDps(inp.yawRate) > cfg.maxYawRateDps then Some(YawRateTooHigh)
    else if !inp.env.poseFinite then Some(LocalizationInvalid)
    else if cfg.requireMappingState && inp.env.supervisor == Lost then Some(SupervisorLost)
    else if cfg.requireScanComplete then ScanEvidence(cfg, inp)
    else None
  }

  function Spread(w: seq<real>): real { if w == [] then 0.0 else MaxOf(w) - MinOf(w) }

  predicate SignOk(w: seq<real>) {
    w != [] && forall i :: 0 <= i < |w| ==> (w[i] >= 0.0 <==> w[0] >= 0.0)
  }

  function Suggest(cfg: YawConfig, delta: real): real { Clamp(delta * cfg.gain, -cfg.maxStep, cfg.maxStep) }

  function Base(cfg: YawConfig, w: seq<real>, inp: GateInput, reason: GateReason): GateSnapshot {
    GateSnapshot(inp.now, reason, false, false, false, inp.m.delta, 0.0, inp.yaw, |w|, Spread(w),
                 ScanEvidenceOk(cfg, inp), MatchEvidence(cfg, inp.m).None?, inp.m.scanId, inp.m.t)
  }

  // ----- what the updates compute -----

  function RejectStep(cfg: YawConfig, g: Gate, inp: GateInput, reason: GateReason): Gate {
    g.(state := Rejected, cooldownUntil := inp.now + cfg.cooldown,
       latest := Base(cfg, g.window, inp, reason).(candidateSeen := true, rejected := true),
       stats := g.stats.(rejected := g.stats.rejected + 1))
  }

  /** A summary is examined: it is new and the gate is not cooling down. */
  predicate Examines(cfg: YawConfig, g: Gate, inp: GateInput) {
    cfg.GateEnabled() && g.cooldownUntil <= inp.now && IsNew(g, inp.m)
  }

  /** It passes the prechecks and joins the window. */
  predicate Accepts(cfg: YawConfig, g: Gate, inp: GateInput) {
    Examines(cfg, g, inp) && Precheck(cfg, inp).None?
  }

  function WindowStep(cfg: YawConfig, w: seq<real>, delta: real): seq<real>
    requires cfg.window >= 1
  {
    LastN(w + [delta], cfg.window)
  }

  /** The decision once the candidate has joined the window. */
  function JudgeStep(cfg: YawConfig, g: Gate, inp: GateInput): Gate {
    var w := g.window;
    var seen := g.latest.(count := |w|, spread := Spread(w));
    var counted := g.stats.(consistencyRejects := g.stats.consistencyRejects + 1);
    if |w| < cfg.window then
      g.(state := if |w| <= 1 then Candidate else ConsistencyCheck, latest := seen.(reason := NotEnough),
         stats := counted)
    else if !SignOk(w) || Spread(w) > cfg.maxSpread then
      RejectStep(cfg, g.(stats := counted), inp, SpreadTooLarge)
    else if Abs(Suggest(cfg, inp.m.delta)) < cfg.minStep then
      RejectStep(cfg, g, inp, CandidateTooSmall)
    else
      g.(state := WouldApply, cooldownUntil := inp.now + cfg.cooldown,
         latest := seen.(reason := WouldApplyDryRun, wouldApply := true, rejected := false,
                         suggested := Suggest(cfg, inp.m.delta),
                         newYaw := WrapPi(inp.yaw + Deg2Rad(Suggest(cfg, inp.m.delta)))),
         stats := g.stats.(wouldApply := g.stats.wouldApply + 1))
  }

  function ExamineStep(cfg: YawConfig, g: Gate, inp: GateInput): Gate
    requires cfg.Valid()
  {
    var g1 := g.(state := Candidate, lastId := inp.m.scanId, lastT := inp.m.t,
                 latest := Base(cfg, g.window, inp, CandidateSeen).(candidateSeen := true),
                 stats := g.stats.(seen := g.stats.seen + 1));
    match Precheck(cfg, inp)
    case Some(reason) => RejectStep(cfg, g1, inp, reason)
    case None => JudgeStep(cfg, g1.(window := WindowStep(cfg, g.window, inp.m.delta)), inp)
  }

  function GateStep(cfg: YawConfig, g: Gate, inp: GateInput): Gate
    requires cfg.Valid()
  {
    if !cfg.GateEnabled() then
      g.(state := Disabled, latest := Base(cfg, g.window, inp, GateDisabled))
    else if g.cooldownUntil > inp.now then
      var g1 := g.(state := Cooldown, latest := Base(cfg, g.window, inp, InCooldown).(rejected := IsNew(g, inp.m)));
      if IsNew(g, inp.m) then
        g1.(lastId := inp.m.scanId, lastT := inp.m.t,
            stats := g.stats.(seen := g.stats.seen + 1, rejected := g.stats.rejected + 1))
      else g1
    else
      var g1 := if g.state == Cooldown then g.(state := Idle) else g;
      if IsNew(g, inp.m) then ExamineStep(cfg, g1, inp)
      else
        var g2 := if inp.m.attempted then g1 else g1.(state := Idle);
        g2.(latest := Base(cfg, g.window, inp, if g2.state == Idle then GateIdle else g.latest.reason))
  }

  function FeedbackStep(cfg: YawConfig, g: Gate, now: real, scanId: nat, matchT: real): Gate {
    g.(window := [], appliedId := scanId, appliedT := matchT, state := Cooldown,
       cooldownUntil := Max(g.cooldownUntil, now + cfg.cooldown),
       latest := g.latest.(t := now, reason := FeedbackCooldown, candidateSeen := false, wouldApply := false,
                           rejected := false, candidate := 0.0, suggested := 0.0, newYaw := 0.0, count := 0,
                           spread := 0.0, scanId := scanId, matchT := matchT),
       stats := g.stats.(feedbacks := g.stats.feedbacks + 1))
  }

  // ----- what one update can do -----

  /** A suggestion is backed by a full window of consistent candidates, all of one sign, the newest being
      the one at hand. It points the same way and is neither too small nor larger than the candidate. */
  ghost predicate IsBacked(cfg: YawConfig, window: seq<real>, snap: GateSnapshot, delta: real) {
    && |window| == cfg.window >= 1 && window[cfg.window - 1] == delta
    && snap.count == cfg.window && SignOk(window) && snap.spread == Spread(window) <= cfg.maxSpread
    && cfg.minStep <= Abs(snap.suggested) <= Min(cfg.maxStep, Abs(delta))
    && (snap.suggested > 0.0 ==> delta > 0.0) && (snap.suggested < 0.0 ==> delta < 0.0)
  }

  /** What an update leaves alone and what it may change: `decided` says whether it ended in a
      suggestion or a rejection, which starts a cooldown. */
  ghost predicate Effect(cfg: YawConfig, g: Gate, n: Gate, inp: GateInput, window: seq<real>, decided: bool) {
    && n.window == window && n.appliedId == g.appliedId && n.appliedT == g.appliedT
    && n.latest.scanId == inp.m.scanId && n.latest.matchT == inp.m.t && n.latest.candidate == inp.m.delta
    && n.cooldownUntil == (if decided then inp.now + cfg.cooldown else g.cooldownUntil)
    && (if n.latest.wouldApply then decided && !n.latest.rejected && IsBacked(cfg, window, n.latest, inp.m.delta)
        else n.latest.suggested == 0.0)
  }

  lemma {:induction false} SuggestBounds(cfg: YawConfig, delta: real)
    requires cfg.Valid()
    ensures var s := Suggest(cfg, delta);
            && Abs(s) <= Min(cfg.maxStep, Abs(delta))
            && (s > 0.0 ==> delta > 0.0) && (s < 0.0 ==> delta < 0.0)
  {
    var p, rest := delta * cfg.gain, 1.0 - cfg.gain;
    assert p + delta * rest == delta;
    if delta >= 0.0 {
      assert p >= 0.0 && delta * rest >= 0.0;
    } else {
      assert p <= 0.0 && delta * rest <= 0.0;
    }
  }

  lemma {:induction false} JudgeEffect(cfg: YawConfig, g: Gate, inp: GateInput)
    requires cfg.Valid() && 0 < |g.window| <= cfg.window && g.window[|g.window| - 1] == inp.m.delta
    requires g.latest.scanId == inp.m.scanId && g.latest.matchT == inp.m.t && g.latest.candidate == inp.m.delta
    requires !g.latest.wouldApply && !g.latest.rejected && g.latest.suggested == 0.0
    ensures var n := JudgeStep(cfg, g, inp);
            && Effect(cfg, g, n, inp, g.window, n.latest.rejected || n.latest.wouldApply)
            && n.lastId == g.lastId && n.lastT == g.lastT
  {
    SuggestBounds(cfg, inp.m.delta);
    hide Suggest, ScanEvidenceOk, MatchEvidence, WrapPi, Deg2Rad;
  }

  lemma {:induction false} ExamineEffect(cfg: YawConfig, g: Gate, inp: GateInput)
    requires cfg.Valid() && |g.window| <= cfg.window
    ensures var n := ExamineStep(cfg, g, inp);
            var window := if Precheck(cfg, inp).None? then WindowStep(cfg, g.window, inp.m.delta) else g.window;
            && Effect(cfg, g, n, inp, window, n.latest.rejected || n.latest.wouldApply)
            && n.lastId == inp.m.scanId && n.lastT == inp.m.t
  {
    hide Precheck, JudgeStep, ScanEvidenceOk, MatchEvidence, Spread, IsBacked;
    if Precheck(cfg, inp).None? {
      var w := WindowStep(cfg, g.window, inp.m.delta);
      assert w[|w| - 1] == inp.m.delta;
      var seen := Base(cfg, g.window, inp, CandidateSeen).(candidateSeen := true);
      var g1 := g.(state := Candidate, lastId := inp.m.scanId, lastT := inp.m.t, latest := seen,
                   stats := g.stats.(seen := g.stats.seen + 1), window := w);
      JudgeEffect(cfg, g1, inp);
    }
  }

  /** The gate came to a decision about a new summary. Summaries that arrive during a cooldown are
      dropped without one. */
  predicate Decides(cfg: YawConfig, g: Gate, inp: GateInput)
    requires cfg.Valid()
  {
    Examines(cfg, g, inp) && (GateStep(cfg, g, inp).latest.rejected || GateStep(cfg, g, inp).latest.wouldApply)
  }

  /** The whole effect of an update. Only a summary not seen before is reported, and that marks it as
      seen; only an accepted one joins the window; only a decision moves the end of the cooldown. */
  lemma {:induction false} GateEffect(cfg: YawConfig, g: Gate, inp: GateInput)
    requires cfg.Valid() && |g.window| <= cfg.window
    ensures var n := GateStep(cfg, g, inp);
            && Effect(cfg, g, n, inp, if Accepts(cfg, g, inp) then WindowStep(cfg, g.window, inp.m.delta) else g.window,
                      Decides(cfg, g, inp))
            && (n.latest.HasCandidate() ==> IsNew(g, inp.m) && n.lastId == inp.m.scanId && n.lastT == inp.m.t)
            && ((n.lastId == g.lastId && n.lastT == g.lastT) || (n.lastId == inp.m.scanId && n.lastT == inp.m.t))
            && (n.latest.wouldApply ==> Accepts(cfg, g, inp))
  {
    hide ExamineStep, ScanEvidenceOk, MatchEvidence, Spread, SameMoment, IsBacked, Precheck, WindowStep;
    var g1 := if g.state == Cooldown then g.(state := Idle) else g;
    if Examines(cfg, g, inp) {
      ExamineEffect(cfg, g1, inp);
      WouldApplyAccepted(cfg, g1, inp);
    }
  }

  lemma {:induction false} WouldApplyAccepted(cfg: YawConfig, g: Gate, inp: GateInput)
    requires cfg.Valid()
    ensures ExamineStep(cfg, g, inp).latest.wouldApply ==> Precheck(cfg, inp).None?
  {
    hide Precheck, JudgeStep, ScanEvidenceOk, MatchEvidence, Spread;
  }

  // ----- the object -----

  class YawCorrectionGate {
    const cfg: YawConfig
    var state: GateState
    var cooldownUntil: real
    var lastId: nat
    var lastT: real
    var appliedId: nat
    var appliedT: real
    var window: seq<real>
    var latest: GateSnapshot
    var stats: GateStats

    ghost function View(): Gate
      reads this
    {
      Gate(state, cooldownUntil, lastId, lastT, appliedId, appliedT, window, latest, stats)
    }

    constructor (cfg: YawConfig)
      ensures this.cfg == cfg && View() == InitGate(cfg)
    {
      this.cfg := cfg;
      cooldownUntil, lastId, lastT, appliedId, appliedT := -1.0, 0, -1.0, 0, -1.0;
      window, stats := [], GateStats(0, 0, 0, 0, 0);
      state, latest := Idle, NO_SNAPSHOT;
      new;
      if !cfg.GateEnabled() {
        state := Disabled;
        latest := latest.(reason := GateDisabled);
      }
    }

    predicate IsNewCandidate(m: Match)
      reads this
      ensures IsNewCandidate(m) <==> IsNew(View(), m)
    {
      if !m.attempted then false
      else if m.scanId == appliedId && SameMoment(m.t, appliedT) then false
      else m.scanId != lastId || !SameMoment(m.t, lastT)
    }

    method Reject(inp: GateInput, reason: GateReason)
      modifies this
      ensures View() == RejectStep(cfg, old(View()), inp, reason)
    {
      latest := Base(cfg, window, inp, reason);
      latest := latest.(candidateSeen := true, rejected := true);
      state := Rejected;
      stats := stats.(rejected := stats.rejected + 1);
      cooldownUntil := inp.now + cfg.cooldown;
    }

    method AddConsistencyCandidate(delta: real)
      requires cfg.Valid() && |window| <= cfg.window
      modifies this`window
      ensures window == WindowStep(cfg, old(window), delta)
    {
      window := window + [delta];
      while |window| > cfg.window
        invariant |window| <= |old(window)| + 1
        invariant LastN(window, cfg.window) == WindowStep(cfg, old(window), delta)
      {
        window := window[1..];
      }
    }

    method Judge(inp: GateInput)
      modifies this
      ensures View() == JudgeStep(cfg, old(View()), inp)
    {
      hide SignOk, Spread, Suggest, WrapPi, Abs, Base;
      latest := latest.(count := |window|, spread := Spread(window));
      if |window| < cfg.window {
        latest := latest.(reason := NotEnough);
        stats := stats.(consistencyRejects := stats.consistencyRejects + 1);
        state := if |window| <= 1 then Candidate else ConsistencyCheck;
        return;
      }
      if !SignOk(window) || latest.spread > cfg.maxSpread {
        stats := stats.(consistencyRejects := stats.consistencyRejects + 1);
        Reject(inp, SpreadTooLarge);
        return;
      }
      var suggested := Suggest(cfg, inp.m.delta);
      if Abs(suggested) < cfg.minStep {
        Reject(inp, CandidateTooSmall);
        return;
      }
      latest := latest.(reason := WouldApplyDryRun, wouldApply := true, rejected := false, suggested := suggested);
      latest := latest.(newYaw := WrapPi(inp.yaw + Deg2Rad(suggested)));
      state := WouldApply;
      stats := stats.(wouldApply := stats.wouldApply + 1);
      cooldownUntil := inp.now + cfg.cooldown;
    }

    /** The candidate part of update. */
    method Examine(inp: GateInput)
      requires cfg.Valid() && |window| <= cfg.window
      modifies this
      ensures View() == ExamineStep(cfg, old(View()), inp)
    {
      hide Precheck, Base, WindowStep, JudgeStep;
      lastId, lastT := inp.m.scanId, inp.m.t;
      stats := stats.(seen := stats.seen + 1);
      latest := Base(cfg, window, inp, CandidateSeen);
      latest := latest.(candidateSeen := true);
      state := Candidate;
      var reason := Precheck(cfg, inp);
      if reason.Some? {
        Reject(inp, reason.value);
        return;
      }
      AddConsistencyCandidate(inp.m.delta);
      Judge(inp);
    }

    method Update(inp: GateInput)
      requires cfg.Valid() && |window| <= cfg.window
      modifies this
      ensures View() == GateStep(cfg, old(View()), inp)
    {
      hide ScanEvidenceOk, MatchEvidence, Spread, ExamineStep, SameMoment;
      if !cfg.GateEnabled() {
        state := Disabled;
        latest := Base(cfg, window, inp, GateDisabled);
        return;
      }
      if cooldownUntil > inp.now {
        var isNew := IsNewCandidate(inp.m);
        state := Cooldown;
        latest := Base(cfg, window, inp, InCooldown).(rejected := isNew);
        if isNew {
          lastId, lastT := inp.m.scanId, inp.m.t;
          stats := stats.(seen := stats.seen + 1, rejected := stats.rejected + 1);
        }
        return;
      }
      if state == Cooldown {
        state := Idle;
      }
      if !IsNewCandidate(inp.m) {
        if !inp.m.attempted {
          state := Idle;
        }
        latest := Base(cfg, window, inp, if state == Idle then GateIdle else latest.reason);
        return;
      }
      Examine(inp);
    }

    method NotifyApplied(now: real, scanId: nat, matchT: real)
      modifies this
      ensures View() == FeedbackStep(cfg, old(View()), now, scanId, matchT)
    {
      window := [];
      appliedId, appliedT := scanId, matchT;
      stats := stats.(feedbacks := stats.feedbacks + 1);
      cooldownUntil := Max(cooldownUntil, now + cfg.cooldown);
      state := Cooldown;
      latest := latest.(t := now, reason := FeedbackCooldown, candidateSeen := false, wouldApply := false,
                        rejected := false, candidate := 0.0, suggested := 0.0, newYaw := 0.0, count := 0, spread := 0.0,
                        scanId := scanId, matchT := matchT);
    }
  }
}
