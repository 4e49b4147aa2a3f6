/** Which writes of the chain are backed by a suggestion of the gate, and for which configurations all are. */
module YawBacking {
  import opened Angles
  import opened YawTypes
  import opened Localizer
  import opened YawChain
  import opened YawTheorems
  import G = YawGate
  import A = YawApply
  import P = PostApply

  // ----- the gate's report -----

  /** What a report that is neither a suggestion nor a rejection says: a candidate that joined a window which
      is not full yet. */
  ghost predicate IsEarly(cfg: YawConfig, g: G.Gate, m: Match) {
    && g.latest.candidateSeen && g.latest.reason == NotEnough && |g.window| < cfg.window && g.latest.suggested == 0.0
    && g.window != []
  }

  lemma {:induction false} JudgeIsEarly(cfg: YawConfig, g: G.Gate, inp: GateInput)
    requires cfg.Valid() && 0 < |g.window| <= cfg.window && g.latest.suggested == 0.0 && g.latest.candidateSeen
    requires !g.latest.wouldApply
    ensures var n := G.JudgeStep(cfg, g, inp);
            !n.latest.wouldApply && !n.latest.rejected ==> IsEarly(cfg, n, inp.m)
    ensures G.JudgeStep(cfg, g, inp).latest.wouldApply ==> |G.JudgeStep(cfg, g, inp).window| == cfg.window
  {
    hide G.Suggest, G.ScanEvidenceOk, G.MatchEvidence, WrapPi, Deg2Rad, Abs, G.SignOk, G.Spread;
  }

  lemma {:induction false} ExamineIsEarly(cfg: YawConfig, g: G.Gate, inp: GateInput)
    requires cfg.Valid() && |g.window| <= cfg.window
    ensures var n := G.ExamineStep(cfg, g, inp);
            !n.latest.wouldApply && !n.latest.rejected ==> IsEarly(cfg, n, inp.m)
  {
    hide G.Precheck, G.JudgeStep, G.ScanEvidenceOk, G.MatchEvidence, G.Spread, IsEarly;
    if G.Precheck(cfg, inp).None? {
      var seen := G.Base(cfg, g.window, inp, CandidateSeen).(candidateSeen := true);
      var g1 := g.(state := G.Candidate, lastId := inp.m.scanId, lastT := inp.m.t, latest := seen,
                   stats := g.stats.(seen := g.stats.seen + 1), window := G.WindowStep(cfg, g.window, inp.m.delta));
      JudgeIsEarly(cfg, g1, inp);
    }
  }

  /** Every report of the gate is a suggestion, a rejection, or early. */
  lemma {:induction false} ReportIsEarly(cfg: YawConfig, g: G.Gate, inp: GateInput)
    requires cfg.Valid() && |g.window| <= cfg.window && cfg.GateEnabled()
    ensures var n := G.GateStep(cfg, g, inp);
            n.latest.HasCandidate() && !n.latest.wouldApply && !n.latest.rejected ==> IsEarly(cfg, n, inp.m)
  {
    hide G.ExamineStep, G.ScanEvidenceOk, G.MatchEvidence, G.Spread, G.IsNew, IsEarly;
    if g.cooldownUntil <= inp.now && G.IsNew(g, inp.m) {
      ExamineIsEarly(cfg, if g.state == G.Cooldown then g.(state := G.Idle) else g, inp);
    }
  }

  /** The snapshot says which match it is about, and what evidence of a scan there is. */
  ghost predicate TellsInput(cfg: YawConfig, g: G.Gate, inp: GateInput) {
    && g.latest.t == inp.now && g.latest.scanId == inp.m.scanId && g.latest.matchT == inp.m.t
    && g.latest.candidate == inp.m.delta && g.latest.scanEvidenceOk == G.ScanEvidenceOk(cfg, inp)
    && g.latest.matchEvidenceOk == G.MatchEvidence(cfg, inp.m).None?
  }

  lemma {:induction false} JudgeTellsInput(cfg: YawConfig, g: G.Gate, inp: GateInput)
    requires TellsInput(cfg, g, inp)
    ensures TellsInput(cfg, G.JudgeStep(cfg, g, inp), inp)
  {
    hide G.ScanEvidenceOk, G.MatchEvidence, G.Spread, G.Suggest, G.SignOk, Abs, WrapPi, Deg2Rad;
  }

  lemma {:induction false} ExamineTellsInput(cfg: YawConfig, g: G.Gate, inp: GateInput)
    requires cfg.Valid()
    ensures TellsInput(cfg, G.ExamineStep(cfg, g, inp), inp)
  {
    hide G.Precheck, G.JudgeStep, G.ScanEvidenceOk, G.MatchEvidence, G.Spread;
    if G.Precheck(cfg, inp).None? {
      var seen := G.Base(cfg, g.window, inp, CandidateSeen).(candidateSeen := true);
      var g1 := g.(state := G.Candidate, lastId := inp.m.scanId, lastT := inp.m.t, latest := seen,
                   stats := g.stats.(seen := g.stats.seen + 1), window := G.WindowStep(cfg, g.window, inp.m.delta));
      JudgeTellsInput(cfg, g1, inp);
    }
  }

  lemma {:induction false} ReportTellsInput(cfg: YawConfig, g: G.Gate, inp: GateInput)
    requires cfg.Valid()
    ensures TellsInput(cfg, G.GateStep(cfg, g, inp), inp)
  {
    hide G.ExamineStep, G.ScanEvidenceOk, G.MatchEvidence, G.Spread, G.IsNew;
    if cfg.GateEnabled() && g.cooldownUntil <= inp.now && G.IsNew(g, inp.m) {
      ExamineTellsInput(cfg, if g.state == G.Cooldown then g.(state := G.Idle) else g, inp);
    }
  }

  // ----- one write -----

  /** The switches that let a write through without a suggestion: no suggestion is asked for, the reason that
      is asked for, if any, is that the window is not full, and a window of one candidate is never short. */
  predicate LetsUnbackedThrough(cfg: Configs) {
    && cfg.yaw.WritebackOn() && cfg.yaw.acknowledged && cfg.yaw.allowMatchEvidence && !cfg.yaw.requireWouldApply
    && (cfg.yaw.requireReason.None? || cfg.yaw.requireReason.value == NotEnough) && cfg.yaw.window >= 2
  }

  lemma {:induction false} UnbackedWriteStep(cfg: Configs, s: Chain, e: Event)
    requires cfg.Valid() && Inv(cfg, s) && Writes(cfg, s, e) && !Suggests(cfg, s, e)
    ensures LetsUnbackedThrough(cfg) && IsEarly(cfg.yaw, GateAfter(cfg, s, e), e.m)
    ensures Step(cfg, s, e).apply.latest.delta == 0.0
  {
    hide Step, G.GateStep, G.MatchEvidence, HeadingConsistent, A.Accounts, IsEarly, A.LocalizationValidity;
    assert e.Present? && cfg.yaw.GateEnabled();
    StepHasEffect(cfg, s, e);
    ReportIsEarly(cfg.yaw, s.gate, GateInputOf(s, e));
    ReportTellsInput(cfg.yaw, s.gate, GateInputOf(s, e));
    EvidenceIsAllowed(cfg.yaw, s.h, e.env, GateAfter(cfg, s, e), GateInputOf(s, e));
    EarlyMeans(cfg.yaw, GateAfter(cfg, s, e), e.m);
  }

  lemma {:induction false} EarlyMeans(cfg: YawConfig, g: G.Gate, m: Match)
    ensures IsEarly(cfg, g, m) ==> g.latest.reason == NotEnough && cfg.window >= 2 && g.latest.suggested == 0.0
  {}

  lemma {:induction false} EvidenceIsAllowed(cfg: YawConfig, h: Heading, env: Env, g: G.Gate, inp: GateInput)
    requires TellsInput(cfg, g, inp)
    ensures A.LocalizationValidity(h, env, g.latest) == A.ValidLocalization ==> cfg.allowMatchEvidence
  {}

  /** Under such switches or not: a write is made on a suggestion exactly when the window is full. */
  lemma {:induction false} WriteIsBackedIff(cfg: Configs, evs: seq<Event>, e: Event)
    requires cfg.Valid() && Writes(cfg, Run(cfg, evs), e)
    ensures var s := Run(cfg, evs);
            Suggests(cfg, s, e) <==> |GateAfter(cfg, s, e).window| == cfg.yaw.window
  {
    assert e.Present?;
    hide Run, Writes, Step, G.GateStep, G.IsBacked, Inv;
    var s := Run(cfg, evs);
    RunHasInv(cfg, evs);
    if Suggests(cfg, s, e) {
      SuggestionIsBacked(cfg, s, e);
      BackedIsFull(cfg.yaw, GateAfter(cfg, s, e), e.m.delta);
    } else {
      UnbackedWriteStep(cfg, s, e);
    }
  }

  lemma {:induction false} BackedIsFull(cfg: YawConfig, g: G.Gate, delta: real)
    requires G.IsBacked(cfg, g.window, g.latest, delta)
    ensures |g.window| == cfg.window
  {}

  /** What a write without a suggestion does: the heading stays, but the write counts against the session, the
      gate forgets its candidates, and the validator, if there is one, waits for a verdict on it. */
  lemma {:induction false} UnbackedWriteEffect(cfg: Configs, evs: seq<Event>, e: Event)
    requires cfg.Valid() && Writes(cfg, Run(cfg, evs), e) && !Suggests(cfg, Run(cfg, evs), e)
    ensures var s := Run(cfg, evs);
            var n := Step(cfg, s, e);
            && n.h.yaw == s.h.yaw && n.apply.latest.delta == 0.0 && n.apply.count == s.apply.count + 1
            && n.apply.lastApply == e.now && n.gate.window == [] && |GateAfter(cfg, s, e).window| > 0
            && (cfg.yaw.postEnabled ==> n.post.state == P.Waiting && n.post.since == e.now)
  {
    assert e.Present?;
    hide *;
    RunHasInv(cfg, evs);
    UnbackedEffect(cfg, Run(cfg, evs), e);
  }

  lemma {:induction false} UnbackedEffect(cfg: Configs, s: Chain, e: Event)
    requires cfg.Valid() && Inv(cfg, s) && Writes(cfg, s, e) && !Suggests(cfg, s, e)
    ensures e.Present?
    ensures var n := Step(cfg, s, e);
            && n.h.yaw == s.h.yaw && n.apply.latest.delta == 0.0 && n.apply.count == s.apply.count + 1
            && n.apply.lastApply == e.now && n.gate.window == [] && |GateAfter(cfg, s, e).window| > 0
            && (cfg.yaw.postEnabled ==> n.post.state == P.Waiting && n.post.since == e.now)
  {
    hide Step, GateAfter, HeadingConsistent, A.Accounts, P.PostStep, CorrectStep;
    UnbackedWriteStep(cfg, s, e);
    StepHasEffect(cfg, s, e);
    NoTurn(s.h);
    if cfg.yaw.postEnabled {
      PostEffect(cfg, s, e);
    }
  }

  lemma {:induction false} NoTurn(h: Heading)
    requires HeadingConsistent(h)
    ensures CorrectStep(h, Deg2Rad(0.0)).yaw == h.yaw
  {
    assert Deg2Rad(0.0) == 0.0;
  }

  // ----- the configurations on which all writes are backed -----

  /** A match that passes every check of the configuration. */
  function GoodMatch(cfg: YawConfig): Match {
    Match(1, 0.0, true, true, true, cfg.maxCandidate, cfg.minBestScore, cfg.minMargin, cfg.minInlierRatio, false,
          cfg.maxFlatness, false, cfg.minObservedYaw, cfg.minSamples, cfg.minBins, cfg.minBinRatio)
  }

  function GoodEvent(cfg: YawConfig): Event { Present(0.0, GoodMatch(cfg), Env(Mapping, Good, true, true, true)) }

  /** The localizer has just been initialized. */
  function Started(cfg: Configs): Chain { InitChain(cfg).(h := INIT_HEADING.(have := true)) }

  const START := [Odometry(0.0, 0.0, 0.0)]

  /** The robot may stand still: validate_config asks for speed limits that are not negative. */
  predicate MayStand(cfg: YawConfig) { cfg.maxLinearSpeed >= 0.0 && cfg.maxYawRateDps >= 0.0 }

  lemma {:induction false} StartedRun(cfg: Configs)
    requires cfg.Valid()
    ensures Run(cfg, START) == Started(cfg)
  {
    assert START[..|START| - 1] == [];
    assert Run(cfg, []) == InitChain(cfg);
  }

  lemma {:induction false} GoodMatchPasses(cfg: YawConfig, inp: GateInput)
    requires cfg.Valid() && MayStand(cfg) && cfg.allowMatchEvidence && inp.m == GoodMatch(cfg)
    requires inp.linearSpeed == 0.0 && inp.yawRate == 0.0 && inp.env == GoodEvent(cfg).env
    ensures G.Precheck(cfg, inp).None? && G.MatchEvidence(cfg, inp.m).None? && G.ScanEvidenceOk(cfg, inp)
  {
    assert Rad2Deg(Abs(0.0)) == 0.0;
  }

  lemma {:induction false} FirstReport(cfg: YawConfig, inp: GateInput)
    requires cfg.Valid() && MayStand(cfg) && cfg.GateEnabled() && cfg.allowMatchEvidence && cfg.window >= 2
    requires inp.m == GoodMatch(cfg) && inp.now == 0.0
    requires inp.linearSpeed == 0.0 && inp.yawRate == 0.0 && inp.env == GoodEvent(cfg).env
    ensures var n := G.GateStep(cfg, G.InitGate(cfg), inp).latest;
            && n.candidateSeen && !n.wouldApply && !n.rejected && n.reason == NotEnough && n.suggested == 0.0
            && n.scanEvidenceOk && n.matchEvidenceOk && n.scanId == 1 && n.matchT == 0.0
  {
    GoodMatchPasses(cfg, inp);
    hide G.Precheck, G.MatchEvidence, G.ScanEvidenceOk, G.Spread, G.Suggest;
    assert G.WindowStep(cfg, [], inp.m.delta) == [inp.m.delta];
  }

  lemma {:induction false} FirstWrite(cfg: YawConfig, lcfg: LocConfig, inp: A.ApplyInput)
    requires cfg.Valid() && MayStand(cfg) && lcfg.maxWriteback == cfg.maxWriteback
    requires cfg.WritebackOn() && cfg.acknowledged && !cfg.requireWouldApply
    requires cfg.requireReason.Some? ==> cfg.requireReason.value == inp.gate.reason
    requires inp.gate.candidateSeen && !inp.gate.rejected && inp.gate.suggested == 0.0 && inp.gate.scanEvidenceOk
    requires inp.gate.matchEvidenceOk && inp.gate.scanId == 1 && inp.supervisor == Mapping && inp.locValid
    requires inp.linearSpeed == 0.0 && inp.yawRate == 0.0
    ensures A.ApplyStep(cfg, lcfg, A.INIT_APPLY, INIT_HEADING.(have := true), inp).0.latest.applied
  {
    assert Rad2Deg(0.0) == 0.0 && Deg2Rad(0.0) == 0.0;
    assert Deg2Rad(lcfg.maxWriteback) >= 0.0;
    assert A.Verdict(cfg, A.INIT_APPLY, inp) == A.Written;
    hide A.Verdict, CorrectStep;
  }

  /** With such switches the first good candidate after the start is written although the gate, still
      collecting candidates, suggests nothing. */
  lemma {:induction false} FirstCandidateIsWritten(cfg: Configs)
    requires cfg.Valid() && MayStand(cfg.yaw) && LetsUnbackedThrough(cfg)
    ensures Writes(cfg, Run(cfg, START), GoodEvent(cfg.yaw)) && !Suggests(cfg, Run(cfg, START), GoodEvent(cfg.yaw))
  {
    StartedRun(cfg);
    hide Run, G.GateStep, A.ApplyStep, P.PostStep, G.FeedbackStep, G.InitGate, GoodMatch, A.LocalizationValidity;
    var s, e := Started(cfg), GoodEvent(cfg.yaw);
    var snap := GateAfter(cfg, s, e).latest;
    FirstReport(cfg.yaw, GateInputOf(s, e));
    StartIsTrusted(s.h, snap, e);
    FirstWrite(cfg.yaw, cfg.loc, ApplyInputOf(s.h, snap, e));
  }

  lemma {:induction false} StartIsTrusted(h: Heading, snap: GateSnapshot, e: Event)
    requires h.have && snap.scanEvidenceOk && snap.matchEvidenceOk && e.Present?
    requires e.env.supervisor == Mapping && e.env.quality == Good && e.env.poseFinite && e.env.velocityFinite
    ensures A.LocalizationValidity(h, e.env, snap) == A.ValidLocalization
  {}

  /** Some run makes a write without a suggestion exactly under such switches. */
  lemma {:induction false} UnbackedWritesIff(cfg: Configs)
    requires cfg.Valid() && MayStand(cfg.yaw)
    ensures (exists evs, e :: Writes(cfg, Run(cfg, evs), e) && !Suggests(cfg, Run(cfg, evs), e)) <==>
            LetsUnbackedThrough(cfg)
  {
    hide Run, Writes, Suggests, LetsUnbackedThrough, Step;
    if LetsUnbackedThrough(cfg) {
      FirstCandidateIsWritten(cfg);
    }
    forall evs, e | Writes(cfg, Run(cfg, evs), e) && !Suggests(cfg, Run(cfg, evs), e) ensures LetsUnbackedThrough(cfg) {
      RunHasInv(cfg, evs);
      UnbackedWriteStep(cfg, Run(cfg, evs), e);
    }
  }

  /** Under all other switches every write, zero or not, repeats a suggestion and is backed by exactly the last
      N accepted candidates. */
  lemma {:induction false} EveryWriteIsBacked(cfg: Configs, evs: seq<Event>, e: Event)
    requires cfg.Valid() && !LetsUnbackedThrough(cfg) && Writes(cfg, Run(cfg, evs), e)
    ensures Suggests(cfg, Run(cfg, evs), e)
    ensures var g := GateAfter(cfg, Run(cfg, evs), e);
            && g.latest.suggested == Step(cfg, Run(cfg, evs), e).apply.latest.delta
            && g.window == LastN(Accepted(cfg, evs) + [e.m.delta], cfg.yaw.window)
            && G.IsBacked(cfg.yaw, g.window, g.latest, e.m.delta)
  {
    assert e.Present?;
    hide Run, Writes, Suggests, LetsUnbackedThrough, Step, Accepted, LastN, Inv, GateAfter, G.IsBacked;
    RunHasInv(cfg, evs);
    if !Suggests(cfg, Run(cfg, evs), e) {
      UnbackedWriteStep(cfg, Run(cfg, evs), e);
    }
    EverySuggestionIsBacked(cfg, evs, e);
    WriteRepeatsReport(cfg, Run(cfg, evs), e);
  }

  lemma {:induction false} WriteRepeatsReport(cfg: Configs, s: Chain, e: Event)
    requires cfg.Valid() && Inv(cfg, s) && Writes(cfg, s, e)
    ensures e.Present? && GateAfter(cfg, s, e).latest.suggested == Step(cfg, s, e).apply.latest.delta
  {
    StepHasEffect(cfg, s, e);
    hide Step, GateAfter, HeadingConsistent, A.Accounts;
  }

  /** Such a configuration exists. */
  function Permissive(): Configs {
    var yaw := YawConfig(
      true, Writeback, true, true,
      true, true, true, true, YawMatchOnly, true, true, 90.0, 10, 10, 0.5, 0.05, 20.0, 0.1, 0.02, 0.2, 0.9,
      5.0, 0.1, 0.5, 1.0, 0.05, 2, 1.0, 10.0,
      1.0, 5.0, 10, 30.0, false, None, true, true,
      true, 30.0, true, true, 5.0, 0.1, 0.3, 1.0);
    Configs(yaw, LocConfig(1000, 0.03, 0.03, 0.2, 1.0, 0.5, 5.0, 0.5, 0.01, 0.01, 0.02, 0.01, 1.0))
  }

  /** A concrete valid configuration and a run of two events whose second writes without a suggestion. */
  lemma {:induction false} UnbackedWriteHappens()
    ensures var cfg := Permissive();
            && cfg.Valid() && Writes(cfg, Run(cfg, START), GoodEvent(cfg.yaw))
            && !Suggests(cfg, Run(cfg, START), GoodEvent(cfg.yaw))
  {
    FirstCandidateIsWritten(Permissive());
    hide Run, Writes, Suggests;
  }

  // ----- the candidates behind a suggestion come from different summaries -----

  /** The gate accepts the summary of event i into its window. */
  predicate AcceptsAt(cfg: Configs, evs: seq<Event>, i: nat)
    requires cfg.Valid() && i < |evs|
  {
    evs[i].Present? && G.Accepts(cfg.yaw, Before(cfg, evs, i).gate, GateInputOf(Before(cfg, evs, i), evs[i]))
  }

  /** The events among the first n whose candidates were accepted since the last write. */
  ghost function AcceptedAt(cfg: Configs, evs: seq<Event>, n: nat): seq<nat>
    requires cfg.Valid() && n <= |evs|
  {
    if n == 0 then []
    else if WritesAt(cfg, evs, n - 1) then []
    else if AcceptsAt(cfg, evs, n - 1) then AcceptedAt(cfg, evs, n - 1) + [n - 1]
    else AcceptedAt(cfg, evs, n - 1)
  }

  /** Events at[0] < at[1] < ... < n with accepted candidates, and no write from the first of them on. */
  ghost predicate AreAccepted(cfg: Configs, evs: seq<Event>, at: seq<nat>, n: nat)
    requires cfg.Valid() && n <= |evs|
  {
    && (forall k :: 0 <= k < |at| ==> at[k] < n && AcceptsAt(cfg, evs, at[k]))
    && (forall k, l :: 0 <= k < l < |at| ==> at[k] < at[l])
    && (forall j: nat :: at != [] && at[0] <= j < n ==> !WritesAt(cfg, evs, j))
  }

  lemma {:induction false} AcceptedAreAccepted(cfg: Configs, evs: seq<Event>, n: nat)
    requires cfg.Valid() && n <= |evs|
    ensures AreAccepted(cfg, evs, AcceptedAt(cfg, evs, n), n)
  {
    hide AcceptsAt, WritesAt;
    if n > 0 {
      AcceptedAreAccepted(cfg, evs, n - 1);
    }
  }

  /** Their candidates are the ones the window is cut from. */
  lemma {:induction false} AcceptedDeltas(cfg: Configs, evs: seq<Event>, n: nat)
    requires cfg.Valid() && n <= |evs|
    ensures var at, deltas := AcceptedAt(cfg, evs, n), Accepted(cfg, evs[..n]);
            && |at| == |deltas|
            && forall k :: 0 <= k < |at| ==> at[k] < n && evs[at[k]].Present? && evs[at[k]].m.delta == deltas[k]
  {
    hide Run, Writes, G.Accepts;
    if n > 0 {
      AcceptedDeltas(cfg, evs, n - 1);
      assert evs[..n][..n - 1] == evs[..n - 1];
    }
  }

  lemma {:induction false} AcceptedIsReported(cfg: Configs, evs: seq<Event>, i: nat)
    requires cfg.Valid() && i < |evs| && AcceptsAt(cfg, evs, i)
    ensures ReportsAt(cfg, evs, i)
  {
    hide Run, G.ExamineStep, G.Precheck;
    var s := Before(cfg, evs, i);
    RunHasInv(cfg, evs[..i]);
    var g := if s.gate.state == G.Cooldown then s.gate.(state := G.Idle) else s.gate;
    ExamineReports(cfg.yaw, g, GateInputOf(s, evs[i]));
  }

  lemma {:induction false} JudgeReports(cfg: YawConfig, g: G.Gate, inp: GateInput)
    requires g.latest.candidateSeen
    ensures G.JudgeStep(cfg, g, inp).latest.HasCandidate()
  {
    hide G.ScanEvidenceOk, G.MatchEvidence, G.Spread, G.Suggest, G.SignOk, Abs, WrapPi, Deg2Rad;
  }

  lemma {:induction false} ExamineReports(cfg: YawConfig, g: G.Gate, inp: GateInput)
    requires cfg.Valid() && G.Precheck(cfg, inp).None?
    ensures G.ExamineStep(cfg, g, inp).latest.HasCandidate()
  {
    hide G.Precheck, G.JudgeStep, G.ScanEvidenceOk, G.MatchEvidence, G.Spread;
    var seen := G.Base(cfg, g.window, inp, CandidateSeen).(candidateSeen := true);
    var g1 := g.(state := G.Candidate, lastId := inp.m.scanId, lastT := inp.m.t, latest := seen,
                 stats := g.stats.(seen := g.stats.seen + 1), window := G.WindowStep(cfg, g.window, inp.m.delta));
    JudgeReports(cfg, g1, inp);
  }

  /** The candidates behind a suggestion at event n: accepted at N events in order, the last of them n, with no
      write from the first of them on; they are the window; and they come from N different summaries. */
  ghost predicate Supports(cfg: Configs, evs: seq<Event>, at: seq<nat>, n: nat)
    requires cfg.Valid() && n < |evs| && evs[n].Present?
  {
    var window := GateAfter(cfg, Before(cfg, evs, n), evs[n]).window;
    && |at| == |window| == cfg.yaw.window && at[|at| - 1] == n
    && (forall k :: 0 <= k < |at| ==> at[k] <= n && AcceptsAt(cfg, evs, at[k]) && evs[at[k]].m.delta == window[k])
    && (forall k, l :: 0 <= k < l < |at| ==> at[k] < at[l] <= n && evs[at[k]].m.scanId < evs[at[l]].m.scanId)
    && (forall j: nat :: at[0] <= j < n ==> !WritesAt(cfg, evs, j))
  }

  lemma {:induction false} SuggestionIsAccepted(cfg: Configs, evs: seq<Event>, n: nat)
    requires cfg.Valid() && n < |evs| && Suggests(cfg, Before(cfg, evs, n), evs[n])
    ensures AcceptsAt(cfg, evs, n)
  {
    hide Run, G.GateStep, G.Accepts, G.IsBacked, G.WindowStep, G.Decides;
    RunHasInv(cfg, evs[..n]);
    G.GateEffect(cfg.yaw, Before(cfg, evs, n).gate, GateInputOf(Before(cfg, evs, n), evs[n]));
  }

  lemma {:induction false} AcceptedGrows(cfg: Configs, evs: seq<Event>, i: nat, j: nat)
    requires cfg.Valid() && Stuttering(evs) && i < j < |evs| && AcceptsAt(cfg, evs, i) && AcceptsAt(cfg, evs, j)
    ensures evs[i].m.scanId < evs[j].m.scanId
  {
    hide AcceptsAt, ReportsAt, WritesAt, Stuttering;
    AcceptedIsReported(cfg, evs, i);
    AcceptedIsReported(cfg, evs, j);
    EachSummaryOnce(cfg, evs, i, j);
  }

  /** The gate accepts this candidate at event i. */
  predicate AcceptsDelta(cfg: Configs, evs: seq<Event>, i: nat, delta: real)
    requires cfg.Valid() && i < |evs|
  {
    AcceptsAt(cfg, evs, i) && evs[i].m.delta == delta
  }

  /** The candidates deltas were accepted at the events at, in order, the last of them n, with no write from
      the first of them on. */
  ghost predicate AcceptedInOrder(cfg: Configs, evs: seq<Event>, at: seq<nat>, deltas: seq<real>, n: nat)
    requires cfg.Valid() && n < |evs|
  {
    && |at| == |deltas| > 0 && at[|at| - 1] == n
    && (forall k :: 0 <= k < |at| ==> at[k] <= n && AcceptsDelta(cfg, evs, at[k], deltas[k]))
    && (forall k, l :: 0 <= k < l < |at| ==> at[k] < at[l])
    && (forall j: nat :: at[0] <= j < n ==> !WritesAt(cfg, evs, j))
  }

  lemma {:induction false} AllAccepted(cfg: Configs, evs: seq<Event>, n: nat)
    requires cfg.Valid() && n < |evs| && AcceptsAt(cfg, evs, n)
    ensures AcceptedInOrder(cfg, evs, AcceptedAt(cfg, evs, n) + [n], Accepted(cfg, evs[..n]) + [evs[n].m.delta], n)
  {
    AcceptedAreAccepted(cfg, evs, n);
    AcceptedDeltas(cfg, evs, n);
    hide G.Accepts, WritesAt, AcceptedAt, Accepted, Run;
  }

  lemma {:induction false} LastAccepted(cfg: Configs, evs: seq<Event>, at: seq<nat>, deltas: seq<real>, n: nat, w: nat)
    requires cfg.Valid() && n < |evs| && 0 < w <= |at| && AcceptedInOrder(cfg, evs, at, deltas, n)
    ensures AcceptedInOrder(cfg, evs, at[|at| - w..], deltas[|at| - w..], n)
  {
    hide AcceptsDelta, WritesAt;
    var d := |at| - w;
    var at', deltas' := at[d..], deltas[d..];
    assert forall k :: 0 <= k < w ==> at'[k] == at[k + d] && deltas'[k] == deltas[k + d];
    assert d > 0 ==> at[0] < at[d];
  }

  /** Over every run in which summaries come in order and are only repeated, every suggestion rests on N
      different summaries, accepted since the last write. */
  lemma {:induction false} SuggestionHasSupport(cfg: Configs, evs: seq<Event>, n: nat)
    requires cfg.Valid() && Stuttering(evs) && n < |evs| && Suggests(cfg, Before(cfg, evs, n), evs[n])
    ensures exists at :: Supports(cfg, evs, at, n)
  {
    hide Run, Suggests, GateAfter, AcceptsAt, AcceptedInOrder, Accepted, AcceptedAt, Stuttering, Supports;
    WindowOfSuggestion(cfg, evs, n);
    SuggestionIsAccepted(cfg, evs, n);
    AllAccepted(cfg, evs, n);
    var at, w := AcceptedAt(cfg, evs, n) + [n], cfg.yaw.window;
    OrderHasLength(cfg, evs, at, Accepted(cfg, evs[..n]) + [evs[n].m.delta], n);
    LastAccepted(cfg, evs, at, Accepted(cfg, evs[..n]) + [evs[n].m.delta], n, w);
    SupportedBy(cfg, evs, n, at[|at| - w..]);
  }

  lemma {:induction false} OrderHasLength(cfg: Configs, evs: seq<Event>, at: seq<nat>, deltas: seq<real>, n: nat)
    requires cfg.Valid() && n < |evs| && AcceptedInOrder(cfg, evs, at, deltas, n)
    ensures |at| == |deltas|
  {}

  lemma {:induction false} WindowOfSuggestion(cfg: Configs, evs: seq<Event>, n: nat)
    requires cfg.Valid() && n < |evs| && Suggests(cfg, Before(cfg, evs, n), evs[n])
    ensures evs[n].Present?
    ensures var window := GateAfter(cfg, Before(cfg, evs, n), evs[n]).window;
            |window| == cfg.yaw.window && window == LastN(Accepted(cfg, evs[..n]) + [evs[n].m.delta], cfg.yaw.window)
  {
    assert evs[n].Present?;
    hide Run, GateAfter, Accepted, LastN, G.IsBacked;
    EverySuggestionIsBacked(cfg, evs[..n], evs[n]);
    BackedIsFull(cfg.yaw, GateAfter(cfg, Before(cfg, evs, n), evs[n]), evs[n].m.delta);
  }

  lemma {:induction false} SupportedBy(cfg: Configs, evs: seq<Event>, n: nat, at: seq<nat>)
    requires cfg.Valid() && Stuttering(evs) && n < |evs| && evs[n].Present?
    requires var window := GateAfter(cfg, Before(cfg, evs, n), evs[n]).window;
             |window| == cfg.yaw.window && AcceptedInOrder(cfg, evs, at, window, n)
    ensures Supports(cfg, evs, at, n)
  {
    assert forall k :: 0 <= k < |at| ==> evs[at[k]].Present?;
    hide Run, GateAfter, AcceptsAt, WritesAt, Stuttering;
    forall k, l | 0 <= k < l < |at| ensures evs[at[k]].m.scanId < evs[at[l]].m.scanId {
      AcceptedGrows(cfg, evs, at[k], at[l]);
    }
  }
}
