/** Which summaries the gate takes in, and what it reports about each, in terms of the configured limits
    (include/robot_slamd/active_scan/yaw_correction_gate.hpp). */
module YawAcceptance {
  import opened Angles
  import opened YawTypes
  import opened Localizer
  import opened YawChain
  import opened YawTheorems
  import opened YawBacking
  import G = YawGate

  // ----- the limits -----

  /** The place of a limit in the order in which the gate looks at them. */
  function Rank(why: GateReason): nat {
    match why
    case MatchNotUsable => 0
    case MatchReasonNotOk => 1
    case LowBestScore => 2
    case LowScoreMargin => 3
    case LowInlierRatio => 4
    case CurveFlat => 5
    case Multimodal => 6
    case CandidateTooLarge => 7
    case CandidateTooSmall => 8
    case RobotMoving => 9
    case YawRateTooHigh => 10
    case LocalizationInvalid => 11
    case SupervisorLost => 12
    case ActiveScanIncomplete => 13
    case MatchIncomplete => 14
    case CoverageTooLow => 15
    case SamplesTooLow => 16
    case BinsTooLow => 17
    case BinRatioTooLow => 18
    case _ => 19
  }

  /** The match shows by itself that a whole scan stands behind it. */
  ghost predicate IsScanMatch(cfg: YawConfig, m: Match) {
    && cfg.allowMatchEvidence && m.usable && (cfg.requireAttempted ==> m.attempted)
    && m.observedYaw >= cfg.minObservedYaw && m.samples >= cfg.minSamples && m.bins >= cfg.minBins
    && m.binRatio >= cfg.minBinRatio
  }

  /** A whole scan stands behind the match, by the source the configuration names. */
  ghost predicate HasScan(cfg: YawConfig, inp: GateInput) {
    || (cfg.source != YawMatchOnly && inp.env.scanEvidence)
    || (cfg.source != ActiveScanOnly && IsScanMatch(cfg, inp.m))
  }

  /** The gate asks the match for evidence and has no other. */
  ghost predicate AsksMatch(cfg: YawConfig, inp: GateInput) {
    cfg.requireScanComplete && cfg.source != ActiveScanOnly && !(cfg.source == Either && inp.env.scanEvidence)
  }

  /** The input is beyond the limit that the reason names. */
  ghost predicate Breaks(cfg: YawConfig, inp: GateInput, why: GateReason) {
    var m := inp.m;
    match why
    case MatchNotUsable => cfg.requireUsable && !m.usable
    case MatchReasonNotOk => !m.reasonOk
    case LowBestScore => cfg.minBestScore > m.bestScore
    case LowScoreMargin => cfg.minMargin > m.margin
    case LowInlierRatio => cfg.minInlierRatio > m.inlierRatio
    case CurveFlat => m.curveFlat || cfg.maxFlatness < m.flatness
    case Multimodal => m.multimodal
    case CandidateTooLarge => m.delta > cfg.maxCandidate || m.delta < -cfg.maxCandidate
    case CandidateTooSmall => -cfg.minCandidate < m.delta < cfg.minCandidate
    case RobotMoving =>
      cfg.requireLowSpeed && (inp.linearSpeed > cfg.maxLinearSpeed || inp.linearSpeed < -cfg.maxLinearSpeed)
    case YawRateTooHigh => cfg.requireLowSpeed && Abs(inp.yawRate) > Deg2Rad(cfg.maxYawRateDps)
    case LocalizationInvalid => !inp.env.poseFinite
    case SupervisorLost => cfg.requireMappingState && inp.env.supervisor == Lost
    case ActiveScanIncomplete => cfg.requireScanComplete && cfg.source == ActiveScanOnly && !inp.env.scanEvidence
    case MatchIncomplete =>
      AsksMatch(cfg, inp) && !(cfg.allowMatchEvidence && m.usable && (cfg.requireAttempted ==> m.attempted))
    case CoverageTooLow => AsksMatch(cfg, inp) && cfg.minObservedYaw > m.observedYaw
    case SamplesTooLow => AsksMatch(cfg, inp) && cfg.minSamples > m.samples
    case BinsTooLow => AsksMatch(cfg, inp) && cfg.minBins > m.bins
    case BinRatioTooLow => AsksMatch(cfg, inp) && cfg.minBinRatio > m.binRatio
    case _ => false
  }

  /** A candidate that no limit of the configuration speaks against. */
  ghost predicate IsSound(cfg: YawConfig, inp: GateInput) {
    var m := inp.m;
    && (cfg.requireUsable ==> m.usable) && m.reasonOk
    && m.bestScore >= cfg.minBestScore && m.margin >= cfg.minMargin && m.inlierRatio >= cfg.minInlierRatio
    && m.flatness <= cfg.maxFlatness && !m.curveFlat && !m.multimodal
    && cfg.minCandidate <= Abs(m.delta) <= cfg.maxCandidate
    && (cfg.requireLowSpeed ==>
          Abs(inp.linearSpeed) <= cfg.maxLinearSpeed && Abs(inp.yawRate) <= Deg2Rad(cfg.maxYawRateDps))
    && inp.env.poseFinite && (cfg.requireMappingState ==> inp.env.supervisor != Lost)
    && (cfg.requireScanComplete ==> HasScan(cfg, inp))
  }

  /** The input is beyond this limit and beyond none that comes before it. */
  ghost predicate FirstBroken(cfg: YawConfig, inp: GateInput, why: GateReason) {
    Breaks(cfg, inp, why) && forall other :: Breaks(cfg, inp, other) ==> Rank(why) <= Rank(other)
  }

  lemma {:induction false} EvidenceMeans(cfg: YawConfig, inp: GateInput)
    ensures G.MatchEvidence(cfg, inp.m).None? <==> IsScanMatch(cfg, inp.m)
    ensures G.ScanEvidenceOk(cfg, inp) <==> HasScan(cfg, inp)
    ensures G.ScanEvidence(cfg, inp).None? <==> HasScan(cfg, inp)
  {}

  /** The prechecks pass exactly the sound candidates. */
  lemma {:induction false} PrecheckPassesSound(cfg: YawConfig, inp: GateInput)
    requires cfg.Valid()
    ensures G.Precheck(cfg, inp).None? <==> IsSound(cfg, inp)
  {
    EvidenceMeans(cfg, inp);
    RateInDegrees(inp.yawRate, cfg.maxYawRateDps);
    hide HasScan, G.ScanEvidence, G.YawRateDps;
  }

  lemma {:induction false} RateInDegrees(rate: real, limit: real)
    ensures G.YawRateDps(rate) <= limit <==> Abs(rate) <= Deg2Rad(limit)
  {}

  lemma {:induction false} FirstIsUnique(cfg: YawConfig, inp: GateInput, why: GateReason, other: GateReason)
    requires FirstBroken(cfg, inp, why) && FirstBroken(cfg, inp, other)
    ensures why == other
  {
    assert Rank(why) == Rank(other) < 19;
  }

  /** The limits on the evidence of a scan come last. */
  predicate IsScanLimit(why: GateReason) { 13 <= Rank(why) <= 18 }

  lemma {:induction false} ScanLimitIsFirst(cfg: YawConfig, inp: GateInput, other: GateReason)
    requires cfg.requireScanComplete
    ensures match G.ScanEvidence(cfg, inp)
            case Some(why) =>
              IsScanLimit(why) && Breaks(cfg, inp, why) && (Breaks(cfg, inp, other) ==> Rank(why) <= Rank(other)
                                                                                         || !IsScanLimit(other))
            case None => !(Breaks(cfg, inp, other) && IsScanLimit(other))
  {
    hide Abs, Deg2Rad;
  }

  lemma {:induction false} NoScanLimit(cfg: YawConfig, inp: GateInput, why: GateReason)
    requires !cfg.requireScanComplete && IsScanLimit(why)
    ensures !Breaks(cfg, inp, why)
  {
    hide Abs, Deg2Rad;
  }

  lemma {:induction false} PrecheckBreaks(cfg: YawConfig, inp: GateInput, why: GateReason)
    requires cfg.Valid() && G.Precheck(cfg, inp) == Some(why)
    ensures Breaks(cfg, inp, why)
  {
    RateInDegrees(inp.yawRate, cfg.maxYawRateDps);
    if cfg.requireScanComplete {
      ScanLimitIsFirst(cfg, inp, why);
    }
    hide G.YawRateDps, Deg2Rad, G.ScanEvidence, AsksMatch, Rank;
  }

  lemma {:induction false} PrecheckIsEarly(cfg: YawConfig, inp: GateInput, other: GateReason)
    requires cfg.Valid() && Breaks(cfg, inp, other)
    ensures G.Precheck(cfg, inp).Some? && Rank(G.Precheck(cfg, inp).value) <= Rank(other)
  {
    RateInDegrees(inp.yawRate, cfg.maxYawRateDps);
    hide G.YawRateDps, Deg2Rad, G.ScanEvidence, AsksMatch;
    if cfg.requireScanComplete {
      ScanLimitIsFirst(cfg, inp, other);
    } else if IsScanLimit(other) {
      NoScanLimit(cfg, inp, other);
    }
  }

  /** Otherwise the reason they give names the first limit that is broken. */
  lemma {:induction false} PrecheckNamesFirst(cfg: YawConfig, inp: GateInput, why: GateReason)
    requires cfg.Valid()
    ensures G.Precheck(cfg, inp) == Some(why) <==> FirstBroken(cfg, inp, why)
  {
    hide G.Precheck, Breaks, Rank;
    forall other | Breaks(cfg, inp, other)
      ensures G.Precheck(cfg, inp).Some? && Rank(G.Precheck(cfg, inp).value) <= Rank(other)
    {
      PrecheckIsEarly(cfg, inp, other);
    }
    if G.Precheck(cfg, inp).Some? {
      var first := G.Precheck(cfg, inp).value;
      PrecheckBreaks(cfg, inp, first);
      if FirstBroken(cfg, inp, why) {
        FirstIsUnique(cfg, inp, first, why);
      }
    }
  }

  // ----- the report on a summary -----

  /** The summary was attempted and is neither the one last looked at nor the one last written. */
  ghost predicate IsUnseen(g: G.Gate, m: Match) {
    && m.attempted && (m.scanId != g.lastId || Abs(m.t - g.lastT) > 0.000000001)
    && (m.scanId != g.appliedId || Abs(m.t - g.appliedT) > 0.000000001)
  }

  ghost predicate IsExamined(cfg: YawConfig, g: G.Gate, inp: GateInput) {
    cfg.enabled && cfg.mode != ModeDisabled && g.cooldownUntil <= inp.now && IsUnseen(g, inp.m)
  }

  /** The candidates have one sign, and no two are further apart than the limit. */
  ghost predicate IsConsistent(cfg: YawConfig, w: seq<real>) {
    && ((forall i :: 0 <= i < |w| ==> w[i] >= 0.0) || (forall i :: 0 <= i < |w| ==> w[i] < 0.0))
    && forall i, j :: 0 <= i < |w| && 0 <= j < |w| ==> w[i] - w[j] <= cfg.maxSpread
  }

  /** The configured share of a candidate. */
  ghost function Share(cfg: YawConfig, delta: real): real { cfg.gain * delta }

  /** The step is the candidate's share, cut off at the step limit. */
  ghost predicate IsStepFor(cfg: YawConfig, delta: real, step: real) {
    var share := Share(cfg, delta);
    step == if share > cfg.maxStep then cfg.maxStep else if share < -cfg.maxStep then -cfg.maxStep else share
  }

  /** The last |w| values of past + [delta], at most N of them. */
  ghost predicate IsNewWindow(cfg: YawConfig, past: seq<real>, delta: real, w: seq<real>) {
    && |w| == (if |past| < cfg.window then |past| + 1 else cfg.window)
    && exists k: nat :: k <= |past| + 1 && w == (past + [delta])[k..]
  }

  lemma {:induction false} WindowMeans(cfg: YawConfig, past: seq<real>, delta: real)
    requires cfg.Valid()
    ensures IsNewWindow(cfg, past, delta, G.WindowStep(cfg, past, delta))
  {
    var s := past + [delta];
    assert s[0..] == s;
    assert G.WindowStep(cfg, past, delta) == s[if |s| <= cfg.window then 0 else |s| - cfg.window..];
  }

  lemma {:induction false} ConsistentIff(cfg: YawConfig, w: seq<real>)
    requires cfg.Valid() && w != []
    ensures G.SignOk(w) && G.Spread(w) <= cfg.maxSpread <==> IsConsistent(cfg, w)
  {
    hide MaxOf, MinOf;
    var hi, lo := MaxOf(w), MinOf(w);
    var i :| 0 <= i < |w| && w[i] == hi;
    var j :| 0 <= j < |w| && w[j] == lo;
  }

  lemma {:induction false} StepMeans(cfg: YawConfig, delta: real)
    requires cfg.Valid()
    ensures IsStepFor(cfg, delta, G.Suggest(cfg, delta))
    ensures Abs(G.Suggest(cfg, delta)) < cfg.minStep <==> Abs(Share(cfg, delta)) < cfg.minStep
  {
    assert Share(cfg, delta) == delta * cfg.gain;
  }

  /** What the gate reports of a summary it examines. */
  ghost predicate Reports(cfg: YawConfig, inp: GateInput, w: seq<real>, n: GateSnapshot) {
    var sound, full := IsSound(cfg, inp), |w| == cfg.window;
    var agree, big := IsConsistent(cfg, w), Abs(Share(cfg, inp.m.delta)) >= cfg.minStep;
    && n.candidateSeen
    && (n.wouldApply <==> sound && full && agree && big)
    && (n.rejected <==> !sound || (full && !(agree && big)))
    && (!sound ==> FirstBroken(cfg, inp, n.reason))
    && (sound && !full ==> n.reason == NotEnough)
    && (sound && full && !agree ==> n.reason == SpreadTooLarge)
    && (sound && full && agree && !big ==> n.reason == CandidateTooSmall)
    && (sound && full && agree && big ==>
          && n.reason == WouldApplyDryRun && IsStepFor(cfg, inp.m.delta, n.suggested)
          && -PI <= n.newYaw <= PI && Congruent(inp.yaw + Deg2Rad(n.suggested), n.newYaw))
  }

  lemma {:induction false} JudgeReportsAll(cfg: YawConfig, g: G.Gate, inp: GateInput)
    requires cfg.Valid() && IsSound(cfg, inp) && 0 < |g.window| <= cfg.window && g.latest.candidateSeen
    requires !g.latest.wouldApply && !g.latest.rejected
    ensures Reports(cfg, inp, g.window, G.JudgeStep(cfg, g, inp).latest)
  {
    ConsistentIff(cfg, g.window);
    StepMeans(cfg, inp.m.delta);
    hide IsSound, FirstBroken, IsConsistent, IsStepFor, G.SignOk, G.Spread, G.Suggest, Abs, WrapPi, Congruent, Deg2Rad,
      G.ScanEvidenceOk, G.MatchEvidence;
  }

  lemma {:induction false} BaseSaysNothing(cfg: YawConfig, w: seq<real>, inp: GateInput, reason: GateReason)
    ensures var base := G.Base(cfg, w, inp, reason); !base.wouldApply && !base.rejected
  {}

  lemma {:induction false} RejectReports(cfg: YawConfig, g: G.Gate, inp: GateInput, w: seq<real>, why: GateReason)
    requires !IsSound(cfg, inp) && FirstBroken(cfg, inp, why)
    ensures Reports(cfg, inp, w, G.RejectStep(cfg, g, inp, why).latest)
  {
    hide IsSound, FirstBroken, IsConsistent, IsStepFor, Share, Congruent, G.ScanEvidenceOk, G.MatchEvidence, G.Spread;
  }

  lemma {:induction false} ExamineReportsAll(cfg: YawConfig, g: G.Gate, inp: GateInput)
    requires cfg.Valid() && |g.window| <= cfg.window
    ensures Reports(cfg, inp, G.WindowStep(cfg, g.window, inp.m.delta), G.ExamineStep(cfg, g, inp).latest)
  {
    PrecheckPassesSound(cfg, inp);
    hide IsSound, G.Precheck, G.JudgeStep, G.RejectStep, FirstBroken, G.ScanEvidenceOk, G.MatchEvidence, G.Spread,
      Reports, G.Base;
    var seen := G.Base(cfg, g.window, inp, CandidateSeen).(candidateSeen := true);
    BaseSaysNothing(cfg, g.window, inp, CandidateSeen);
    var g1 := g.(state := G.Candidate, lastId := inp.m.scanId, lastT := inp.m.t, latest := seen,
                 stats := g.stats.(seen := g.stats.seen + 1));
    match G.Precheck(cfg, inp)
    case Some(why) =>
      PrecheckNamesFirst(cfg, inp, why);
      RejectReports(cfg, g1, inp, G.WindowStep(cfg, g.window, inp.m.delta), why);
    case None =>
      JudgeReportsAll(cfg, g1.(window := G.WindowStep(cfg, g.window, inp.m.delta)), inp);
  }

  lemma {:induction false} ExaminesIff(cfg: YawConfig, g: G.Gate, inp: GateInput)
    ensures G.IsNew(g, inp.m) <==> IsUnseen(g, inp.m)
    ensures G.Examines(cfg, g, inp) <==> IsExamined(cfg, g, inp)
  {
    hide Abs;
  }

  /** During a cooldown a new summary is rejected; otherwise nothing is said of a summary that is not examined. */
  ghost predicate PassesOver(cfg: YawConfig, g: G.Gate, inp: GateInput, n: GateSnapshot) {
    && !n.candidateSeen && !n.wouldApply
    && (n.rejected <==> cfg.enabled && cfg.mode != ModeDisabled && g.cooldownUntil > inp.now && IsUnseen(g, inp.m))
  }

  lemma {:induction false} UnexaminedReport(cfg: YawConfig, g: G.Gate, inp: GateInput)
    requires cfg.Valid() && !G.Examines(cfg, g, inp)
    ensures PassesOver(cfg, g, inp, G.GateStep(cfg, g, inp).latest)
  {
    ExaminesIff(cfg, g, inp);
    hide G.IsNew, IsUnseen, G.ExamineStep, G.ScanEvidenceOk, G.MatchEvidence, G.Spread;
  }

  lemma {:induction false} ExaminedReport(cfg: YawConfig, g: G.Gate, inp: GateInput)
    requires cfg.Valid() && |g.window| <= cfg.window && G.Examines(cfg, g, inp)
    ensures Reports(cfg, inp, G.WindowStep(cfg, g.window, inp.m.delta), G.GateStep(cfg, g, inp).latest)
  {
    hide G.IsNew, G.ExamineStep, G.ScanEvidenceOk, G.MatchEvidence, G.Spread, Reports, G.WindowStep;
    ExamineReportsAll(cfg, if g.state == G.Cooldown then g.(state := G.Idle) else g, inp);
  }

  /** The whole report of an update, in terms of the limits: a suggestion for a sound candidate that completes a
      full, consistent window and is worth a step; a rejection that names the first limit broken. */
  lemma {:induction false} GateReports(cfg: YawConfig, g: G.Gate, inp: GateInput)
    requires cfg.Valid() && |g.window| <= cfg.window
    ensures var n := G.GateStep(cfg, g, inp).latest;
            && (if IsExamined(cfg, g, inp) then Reports(cfg, inp, G.WindowStep(cfg, g.window, inp.m.delta), n)
                else PassesOver(cfg, g, inp, n))
            && n.t == inp.now && n.scanId == inp.m.scanId && n.matchT == inp.m.t && n.candidate == inp.m.delta
            && (n.scanEvidenceOk <==> HasScan(cfg, inp)) && (n.matchEvidenceOk <==> IsScanMatch(cfg, inp.m))
    ensures G.Accepts(cfg, g, inp) <==> IsExamined(cfg, g, inp) && IsSound(cfg, inp)
  {
    hide IsSound, G.Precheck, G.GateStep, G.ScanEvidenceOk, G.MatchEvidence, Reports, HasScan, IsScanMatch,
      IsExamined, G.Examines, PassesOver, G.WindowStep;
    PrecheckPassesSound(cfg, inp);
    EvidenceMeans(cfg, inp);
    ReportTellsInput(cfg, g, inp);
    ExaminesIff(cfg, g, inp);
    if G.Examines(cfg, g, inp) {
      ExaminedReport(cfg, g, inp);
    } else {
      UnexaminedReport(cfg, g, inp);
    }
  }

  // ----- over runs -----

  /** The summary of event i is examined and sound. */
  ghost predicate SoundAt(cfg: Configs, evs: seq<Event>, i: nat)
    requires cfg.Valid() && i < |evs|
  {
    && evs[i].Present? && IsExamined(cfg.yaw, Before(cfg, evs, i).gate, GateInputOf(Before(cfg, evs, i), evs[i]))
    && IsSound(cfg.yaw, GateInputOf(Before(cfg, evs, i), evs[i]))
  }

  lemma {:induction false} AcceptsSound(cfg: Configs, evs: seq<Event>, i: nat)
    requires cfg.Valid() && i < |evs|
    ensures AcceptsAt(cfg, evs, i) <==> SoundAt(cfg, evs, i)
  {
    hide Run, G.Accepts, IsExamined, IsSound;
    if evs[i].Present? {
      WindowFits(cfg, evs[..i]);
      GateReports(cfg.yaw, Before(cfg, evs, i).gate, GateInputOf(Before(cfg, evs, i), evs[i]));
    }
  }

  lemma {:induction false} WindowFits(cfg: Configs, evs: seq<Event>)
    requires cfg.Valid()
    ensures |Run(cfg, evs).gate.window| <= cfg.yaw.window
  {
    hide Run, HeadingConsistent;
    RunHasInv(cfg, evs);
  }

  /** Over every run in which summaries come in order and are only repeated: behind every suggestion stand N
      different summaries, and each of them kept every limit of the configuration when it was presented. */
  lemma {:induction false} SuggestionRestsOnSound(cfg: Configs, evs: seq<Event>, n: nat)
    requires cfg.Valid() && Stuttering(evs) && n < |evs| && Suggests(cfg, Before(cfg, evs, n), evs[n])
    ensures exists at :: Supports(cfg, evs, at, n) && forall k :: 0 <= k < |at| ==> SoundAt(cfg, evs, at[k])
  {
    assert evs[n].Present?;
    hide Run, Suggests, GateAfter, AcceptsAt, SoundAt, Stuttering;
    SuggestionHasSupport(cfg, evs, n);
    var at :| Supports(cfg, evs, at, n);
    forall k | 0 <= k < |at| ensures SoundAt(cfg, evs, at[k]) {
      AcceptsSound(cfg, evs, at[k]);
    }
  }

  lemma {:induction false} SuggestsInState(cfg: Configs, s: Chain, e: Event, w: seq<real>)
    requires cfg.Valid() && e.Present? && |s.gate.window| <= cfg.yaw.window
    requires w == G.WindowStep(cfg.yaw, s.gate.window, e.m.delta)
    ensures var inp := GateInputOf(s, e);
            && (Suggests(cfg, s, e) <==>
                && IsExamined(cfg.yaw, s.gate, inp) && IsSound(cfg.yaw, inp)
                && |w| == cfg.yaw.window && IsConsistent(cfg.yaw, w)
                && Abs(Share(cfg.yaw, e.m.delta)) >= cfg.yaw.minStep)
            && (Suggests(cfg, s, e) ==> IsStepFor(cfg.yaw, e.m.delta, GateAfter(cfg, s, e).latest.suggested))
  {
    hide G.GateStep, IsSound, IsConsistent, IsStepFor, FirstBroken, G.WindowStep, G.Accepts, IsUnseen, Congruent, Abs,
      Share;
    GateReports(cfg.yaw, s.gate, GateInputOf(s, e));
  }

  /** When exactly the gate suggests, and what: a sound candidate that completes a full window of consistent
      candidates, accepted since the last write. */
  lemma {:induction false} SuggestsIff(cfg: Configs, evs: seq<Event>, e: Event)
    requires cfg.Valid() && e.Present?
    ensures var s := Run(cfg, evs);
            var inp, w := GateInputOf(s, e), LastN(Accepted(cfg, evs) + [e.m.delta], cfg.yaw.window);
            && (Suggests(cfg, s, e) <==>
                && IsExamined(cfg.yaw, s.gate, inp) && IsSound(cfg.yaw, inp)
                && |w| == cfg.yaw.window && IsConsistent(cfg.yaw, w)
                && Abs(Share(cfg.yaw, e.m.delta)) >= cfg.yaw.minStep)
            && (Suggests(cfg, s, e) ==> IsStepFor(cfg.yaw, e.m.delta, GateAfter(cfg, s, e).latest.suggested))
  {
    hide *;
    WindowFits(cfg, evs);
    WindowOfRun(cfg, evs, e.m.delta);
    SuggestsInState(cfg, Run(cfg, evs), e, LastN(Accepted(cfg, evs) + [e.m.delta], cfg.yaw.window));
  }

  /** The identities that the gate remembers are those of summaries presented before. */
  ghost predicate Presented(evs: seq<Event>, id: nat) {
    id == 0 || exists j :: 0 <= j < |evs| && evs[j].Present? && evs[j].m.scanId == id
  }

  /** The cooldown ends at its start, or one cooldown after an event that was decided or written. */
  ghost predicate EndsAfter(cfg: Configs, evs: seq<Event>, n: nat, until: real)
    requires cfg.Valid() && n <= |evs|
  {
    until == -1.0 || exists j: nat :: j < n && (DecidesAt(cfg, evs, j) || WritesAt(cfg, evs, j))
                                    && until == evs[j].now + cfg.yaw.cooldown
  }

  lemma {:induction false} IdsStep(cfg: Configs, s: Chain, e: Event)
    requires cfg.Valid() && Inv(cfg, s)
    ensures var n := Step(cfg, s, e).gate;
            && (n.lastId == s.gate.lastId || (e.Present? && n.lastId == e.m.scanId))
            && (n.appliedId == s.gate.appliedId || (e.Present? && n.appliedId == e.m.scanId))
            && (n.cooldownUntil == s.gate.cooldownUntil
                || (e.Present? && (G.Decides(cfg.yaw, s.gate, GateInputOf(s, e)) || Writes(cfg, s, e))
                    && n.cooldownUntil == e.now + cfg.yaw.cooldown))
  {
    StepHasEffect(cfg, s, e);
    MemoryStep(cfg, s, e);
    if e.Present? {
      G.GateEffect(cfg.yaw, s.gate, GateInputOf(s, e));
    }
    hide Step, G.GateStep, G.WindowStep, G.IsBacked, G.Precheck, G.Accepts, G.Decides, Congruent;
  }

  lemma {:induction false} StartsEmpty(cfg: Configs)
    ensures var g := G.InitGate(cfg.yaw);
            g.lastId == g.appliedId == 0 && g.cooldownUntil == -1.0
  {}

  lemma {:induction false} GateRemembersPresented(cfg: Configs, evs: seq<Event>, n: nat)
    requires cfg.Valid() && n <= |evs|
    ensures var g := Run(cfg, evs[..n]).gate;
            Presented(evs, g.lastId) && Presented(evs, g.appliedId) && EndsAfter(cfg, evs, n, g.cooldownUntil)
  {
    hide Step, Writes, G.Decides, Inv, G.InitGate;
    if n == 0 {
      assert evs[..0] == [];
      StartsEmpty(cfg);
    } else {
      GateRemembersPresented(cfg, evs, n - 1);
      RunStep(cfg, evs, n - 1);
      RunHasInv(cfg, evs[..n - 1]);
      IdsStep(cfg, Before(cfg, evs, n - 1), evs[n - 1]);
      hide Run;
    }
  }

  /** A summary of a scan never presented before is examined as soon as every decision and write lies at least one
      cooldown back, so no such summary is missed. */
  lemma {:induction false} NewSummaryIsExamined(cfg: Configs, evs: seq<Event>, e: Event)
    requires cfg.Valid() && cfg.yaw.GateEnabled() && e.Present? && e.now >= 0.0 && e.m.attempted && e.m.scanId > 0
    requires forall j :: 0 <= j < |evs| && evs[j].Present? ==> evs[j].m.scanId != e.m.scanId
    requires forall j: nat :: j < |evs| && (DecidesAt(cfg, evs, j) || WritesAt(cfg, evs, j)) ==>
                                evs[j].now + cfg.yaw.cooldown <= e.now
    ensures IsExamined(cfg.yaw, Run(cfg, evs).gate, GateInputOf(Run(cfg, evs), e))
  {
    hide Run, DecidesAt, WritesAt, Abs;
    GateRemembersPresented(cfg, evs, |evs|);
    assert evs[..|evs|] == evs;
  }
}
