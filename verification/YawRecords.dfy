/** The gate's states, counters and snapshots: what an update records, what a write leaves, and what a run adds up to
    (include/robot_slamd/active_scan/yaw_correction_gate.hpp). */
module YawRecords {
  import opened Angles
  import opened YawTypes
  import opened Localizer
  import opened YawChain
  import opened YawTheorems
  import opened YawAcceptance
  import opened YawWriting
  import A = YawApply
  import G = YawGate
  import P = PostApply

  // ----- one update -----

  ghost function One(b: bool): nat { if b then 1 else 0 }

  ghost predicate IsOn(cfg: YawConfig) { cfg.enabled && cfg.mode != ModeDisabled }

  /** The spread of a window is the largest difference between two of its candidates. */
  lemma {:induction false} SpreadMeans(w: seq<real>)
    ensures w == [] ==> G.Spread(w) == 0.0
    ensures forall i, j :: 0 <= i < |w| && 0 <= j < |w| ==> w[i] - w[j] <= G.Spread(w)
    ensures w != [] ==> exists i, j :: 0 <= i < |w| && 0 <= j < |w| && w[i] - w[j] == G.Spread(w)
  {
    if w != [] {
      var i :| 0 <= i < |w| && w[i] == MaxOf(w);
      var j :| 0 <= j < |w| && w[j] == MinOf(w);
    }
  }

  ghost predicate IsUndecided(n: GateSnapshot) { n.reason == NotEnough || n.reason == SpreadTooLarge }

  /** What an update counts and shows: new summaries, decisions of each kind, and the size of the window. */
  ghost predicate IsTallied(cfg: YawConfig, g: G.Gate, inp: GateInput, n: G.Gate) {
    && n.stats == G.GateStats(
         g.stats.seen + One(IsOn(cfg) && IsUnseen(g, inp.m)),
         g.stats.wouldApply + One(n.latest.wouldApply),
         g.stats.rejected + One(n.latest.rejected),
         g.stats.consistencyRejects + One(IsExamined(cfg, g, inp) && IsUndecided(n.latest)),
         g.stats.feedbacks)
    && n.latest.count == |n.window| && n.latest.spread == G.Spread(n.window)
  }

  /** The state after a summary was examined. */
  ghost predicate IsStateOf(n: G.Gate) {
    var open := !n.latest.wouldApply && !n.latest.rejected;
    && (n.state == G.WouldApply <==> n.latest.wouldApply) && (n.state == G.Rejected <==> n.latest.rejected)
    && (n.state == G.Candidate <==> open && |n.window| == 1)
    && (n.state == G.ConsistencyCheck <==> open && |n.window| > 1)
  }

  /** The state an update ends in. */
  ghost predicate IsStateAfter(cfg: YawConfig, g: G.Gate, inp: GateInput, n: G.Gate) {
    if !IsOn(cfg) then n.state == G.Disabled && n.latest.reason == GateDisabled
    else if g.cooldownUntil > inp.now then n.state == G.Cooldown && n.latest.reason == InCooldown
    else if IsUnseen(g, inp.m) then IsStateOf(n)
    else
      && n.state == (if g.state == G.Cooldown || !inp.m.attempted then G.Idle else g.state)
      && n.latest.reason == (if n.state == G.Idle then GateIdle else g.latest.reason)
  }

  /** The records of an examination that began with these counters. */
  ghost predicate Records(before: G.GateStats, n: G.Gate) {
    && n.stats == G.GateStats(before.seen, before.wouldApply + One(n.latest.wouldApply),
                              before.rejected + One(n.latest.rejected),
                              before.consistencyRejects + One(IsUndecided(n.latest)), before.feedbacks)
    && n.latest.count == |n.window| && n.latest.spread == G.Spread(n.window) && IsStateOf(n)
  }

  lemma {:induction false} JudgeRecords(cfg: YawConfig, g: G.Gate, inp: GateInput)
    requires g.window != [] && !g.latest.wouldApply && !g.latest.rejected
    ensures Records(g.stats, G.JudgeStep(cfg, g, inp))
  {
    hide G.SignOk, G.Suggest, G.ScanEvidenceOk, G.MatchEvidence, G.Spread, WrapPi, Deg2Rad, Abs;
  }

  lemma {:induction false} RejectRecords(cfg: YawConfig, g: G.Gate, inp: GateInput, why: GateReason)
    requires G.Precheck(cfg, inp) == Some(why) && cfg.Valid()
    ensures Records(g.stats, G.RejectStep(cfg, g, inp, why))
  {
    PrecheckBreaks(cfg, inp, why);
    hide G.Precheck, G.ScanEvidenceOk, G.MatchEvidence, G.Spread, HasScan, IsScanMatch, Abs, Deg2Rad;
  }

  lemma {:induction false} ExamineRecords(cfg: YawConfig, g: G.Gate, inp: GateInput)
    requires cfg.Valid()
    ensures Records(g.stats.(seen := g.stats.seen + 1), G.ExamineStep(cfg, g, inp))
  {
    hide G.Precheck, G.JudgeStep, G.RejectStep, G.ScanEvidenceOk, G.MatchEvidence, G.Spread, Records, G.Base;
    var g1 := g.(state := G.Candidate, lastId := inp.m.scanId, lastT := inp.m.t,
                 latest := G.Base(cfg, g.window, inp, CandidateSeen).(candidateSeen := true),
                 stats := g.stats.(seen := g.stats.seen + 1));
    BaseSaysNothing(cfg, g.window, inp, CandidateSeen);
    match G.Precheck(cfg, inp)
    case Some(why) => RejectRecords(cfg, g1, inp, why);
    case None => JudgeRecords(cfg, g1.(window := G.WindowStep(cfg, g.window, inp.m.delta)), inp);
  }

  ghost predicate IsRecorded(cfg: YawConfig, g: G.Gate, inp: GateInput, n: G.Gate) {
    IsTallied(cfg, g, inp, n) && IsStateAfter(cfg, g, inp, n)
  }

  lemma {:induction false} ExaminedIsRecorded(cfg: YawConfig, g: G.Gate, inp: GateInput)
    requires cfg.Valid() && G.Examines(cfg, g, inp)
    ensures IsRecorded(cfg, g, inp, G.GateStep(cfg, g, inp))
  {
    ExaminesIff(cfg, g, inp);
    hide G.IsNew, IsUnseen, G.ExamineStep, G.Spread, IsStateOf;
    var g1 := if g.state == G.Cooldown then g.(state := G.Idle) else g;
    ExamineRecords(cfg, g1, inp);
    assert G.GateStep(cfg, g, inp) == G.ExamineStep(cfg, g1, inp);
    hide G.GateStep;
  }

  lemma {:induction false} UnexaminedIsRecorded(cfg: YawConfig, g: G.Gate, inp: GateInput)
    requires cfg.Valid() && !G.Examines(cfg, g, inp)
    ensures IsRecorded(cfg, g, inp, G.GateStep(cfg, g, inp))
  {
    ExaminesIff(cfg, g, inp);
    hide G.IsNew, IsUnseen, G.ExamineStep, G.ScanEvidenceOk, G.MatchEvidence, G.Spread, IsStateOf;
  }

  /** What an update records: its counters, its state, and what its snapshot shows of the window. */
  lemma {:induction false} UpdateIsRecorded(cfg: YawConfig, g: G.Gate, inp: GateInput)
    requires cfg.Valid()
    ensures IsTallied(cfg, g, inp, G.GateStep(cfg, g, inp)) && IsStateAfter(cfg, g, inp, G.GateStep(cfg, g, inp))
  {
    hide G.Examines, G.GateStep, IsTallied, IsStateAfter;
    if G.Examines(cfg, g, inp) { ExaminedIsRecorded(cfg, g, inp); } else { UnexaminedIsRecorded(cfg, g, inp); }
  }

  // ----- one attempt -----

  /** The state an attempt ends in: refused, waiting, applied, or why there was no attempt. */
  ghost predicate IsOutcome(cfg: YawConfig, inp: A.ApplyInput, n: A.ApplySnapshot) {
    var tried := IsAttempt(cfg, inp);
    var on := IsOn(cfg);
    var faulty := on && cfg.mode == Writeback && !(cfg.writebackEnabled && cfg.acknowledged);
    && (n.state == A.Applied <==> n.applied) && (n.applied ==> tried)
    && (n.state == A.Cooldown <==> tried && !n.applied && n.reason == A.TooSoon)
    && (n.state == A.Rejected <==> tried && !n.applied && n.reason != A.TooSoon)
    && (n.state == A.Disabled <==> !on) && (n.state == A.Fault <==> faulty)
    && (n.state == A.Idle <==> on && !faulty && !tried)
  }

  /** What an attempt shows: the summary it is about, the session after it, and the heading before and after. */
  ghost predicate Shows(cfg: YawConfig, h: Heading, inp: A.ApplyInput, n: A.Apply, h1: Heading) {
    var x := n.latest;
    && x.t == inp.now && x.scanId == inp.gate.scanId && x.matchT == inp.gate.matchT && x.state == n.state
    && x.sessionCount == n.count && x.sessionTotal == n.total
    && (x.attempted <==> IsAttempt(cfg, inp)) && IsOutcome(cfg, inp, x)
    && if x.applied then x.oldYaw == h.yaw && x.newYaw == h1.yaw && x.delta == inp.gate.suggested
       else h1 == h && (x.reason != A.LocalizerRejected ==> x.oldYaw == x.newYaw == inp.yaw && x.delta == 0.0)
  }

  /** The snapshot an attempt starts from. */
  ghost predicate IsOpening(a: A.Apply, inp: A.ApplyInput, x: A.ApplySnapshot) {
    && x.t == inp.now && x.scanId == inp.gate.scanId && x.matchT == inp.gate.matchT && x.attempted
    && x.sessionCount == a.count && x.sessionTotal == a.total
  }

  lemma {:induction false} RefusalShows(cfg: YawConfig, a: A.Apply, h: Heading, inp: A.ApplyInput, x: A.ApplySnapshot,
                                        why: A.ApplyReason)
    requires IsAttempt(cfg, inp) && IsOpening(a, inp, x)
    requires why != A.LocalizerRejected ==> x.oldYaw == x.newYaw == inp.yaw && x.delta == 0.0
    ensures Shows(cfg, h, inp, A.RejectStep(a, x, why), h) && !A.RejectStep(a, x, why).latest.applied
  {
    hide A.CountReject;
  }

  lemma {:induction false} WriteShows(cfg: YawConfig, lcfg: LocConfig, a: A.Apply, h: Heading, inp: A.ApplyInput,
                                      x: A.ApplySnapshot)
    requires IsAttempt(cfg, inp) && IsOpening(a, inp, x) && x.oldYaw == h.yaw && x.delta == inp.gate.suggested
    ensures var (n, h1) := A.WriteStep(lcfg, a, h, inp, x);
            && Shows(cfg, h, inp, n, h1)
            && (n.latest.applied ==> n.stats == a.stats.(successes := a.stats.successes + 1))
  {
    RefusalShows(cfg, a, h, inp, x.(newYaw := h.yaw), A.LocalizerRejected);
    hide A.RejectStep, CorrectStep, TakesCorrection, Deg2Rad, Abs;
  }

  lemma {:induction false} NoAttemptShows(cfg: YawConfig, lcfg: LocConfig, a: A.Apply, h: Heading, inp: A.ApplyInput)
    requires !IsAttempt(cfg, inp)
    ensures var (n, h1) := A.ApplyStep(cfg, lcfg, a, h, inp); Shows(cfg, h, inp, n, h1) && !n.latest.applied
  {
    hide A.Verdict, A.WriteStep, A.RejectStep;
  }

  lemma {:induction false} AttemptShows(cfg: YawConfig, lcfg: LocConfig, a: A.Apply, h: Heading, inp: A.ApplyInput)
    ensures var (n, h1) := A.ApplyStep(cfg, lcfg, a, h, inp);
            && Shows(cfg, h, inp, n, h1)
            && (n.latest.applied ==>
                  n.stats == a.stats.(attempts := a.stats.attempts + 1, successes := a.stats.successes + 1))
  {
    if !IsAttempt(cfg, inp) {
      NoAttemptShows(cfg, lcfg, a, h, inp);
    } else {
      VerdictNamesFirst(cfg, a, inp);
      hide Shows, A.Verdict, A.WriteStep, A.RejectStep, NamesFirst;
      var a1 := a.(state := A.Ready, stats := a.stats.(attempts := a.stats.attempts + 1));
      var x := A.Snapshot(a, inp, A.Ready, A.NoReason).(attempted := true);
      RefusalShows(cfg, a1, h, inp, x, A.Verdict(cfg, a, inp));
      WriteShows(cfg, lcfg, a1, h, inp, x.(oldYaw := h.yaw, delta := inp.gate.suggested));
    }
  }

  // ----- after a write -----

  /** What a write leaves of the gate: an empty window, a snapshot that tells nothing but the write, and a cooldown at
      least as long as before. */
  ghost predicate IsCleared(cfg: YawConfig, g: G.Gate, e: Event, n: G.Gate)
    requires e.Present?
  {
    && n.window == [] && n.state == G.Cooldown
    && n.latest.t == e.now && n.latest.reason == FeedbackCooldown
    && n.latest.scanId == e.m.scanId && n.latest.matchT == e.m.t
    && !n.latest.candidateSeen && !n.latest.wouldApply && !n.latest.rejected && n.latest.count == 0
    && n.latest.candidate == n.latest.suggested == n.latest.newYaw == n.latest.spread == 0.0
    && n.cooldownUntil >= g.cooldownUntil && n.cooldownUntil >= e.now + cfg.cooldown
    && (n.cooldownUntil == g.cooldownUntil || n.cooldownUntil == e.now + cfg.cooldown)
    && n.stats == g.stats.(feedbacks := g.stats.feedbacks + 1)
  }

  lemma {:induction false} FeedbackClears(cfg: Configs, g: G.Gate, e: Event)
    requires e.Present?
    ensures IsCleared(cfg.yaw, g, e, G.FeedbackStep(cfg.yaw, g, e.now, e.m.scanId, e.m.t))
  {}

  lemma {:induction false} WriteClears(cfg: Configs, s: Chain, e: Event)
    requires cfg.Valid() && |s.gate.window| <= cfg.yaw.window
    ensures var n := Step(cfg, s, e).gate;
            if Writes(cfg, s, e) then e.Present? && IsCleared(cfg.yaw, GateAfter(cfg, s, e), e, n)
            else n == if e.Present? then GateAfter(cfg, s, e) else s.gate
  {
    hide G.GateStep, A.ApplyStep, P.PostStep, A.LocalizationValidity, NamesFirst, IsCounted, IsCleared, G.FeedbackStep,
      Reports, PassesOver, HasScan, IsScanMatch, G.Accepts, IsSound, IsExamined;
    if e.Present? && cfg.yaw.GateEnabled() {
      GateReports(cfg.yaw, s.gate, GateInputOf(s, e));
      AttemptShows(cfg.yaw, cfg.loc, s.apply, s.h, ApplyInputOf(s.h, GateAfter(cfg, s, e).latest, e));
      FeedbackClears(cfg, GateAfter(cfg, s, e), e);
    }
  }

  // ----- over runs -----

  ghost function NumSuggestions(cfg: Configs, evs: seq<Event>, n: nat): nat
    requires cfg.Valid() && n <= |evs|
  {
    if n == 0 then 0 else NumSuggestions(cfg, evs, n - 1) + One(Suggests(cfg, Before(cfg, evs, n - 1), evs[n - 1]))
  }

  /** Over every run the gate has counted its suggestions and the writes. */
  lemma {:induction false} RunIsTallied(cfg: Configs, evs: seq<Event>, n: nat)
    requires cfg.Valid() && n <= |evs|
    ensures var g := Run(cfg, evs[..n]).gate;
            && g.stats.wouldApply == NumSuggestions(cfg, evs, n) && g.stats.feedbacks == NumWrites(cfg, evs, n)
            && (n == 0 ==> g.state == if IsOn(cfg.yaw) then G.Idle else G.Disabled)
  {
    hide Step, Inv, Writes, GateAfter;
    if n == 0 {
      assert evs[..0] == [];
    } else {
      RunIsTallied(cfg, evs, n - 1);
      RunStep(cfg, evs, n - 1);
      WindowFits(cfg, evs[..n - 1]);
      WriteClears(cfg, Before(cfg, evs, n - 1), evs[n - 1]);
      if evs[n - 1].Present? {
        SuggestionIsTallied(cfg, Before(cfg, evs, n - 1), evs[n - 1]);
      }
      hide Run;
    }
  }

  lemma {:induction false} SuggestionIsTallied(cfg: Configs, s: Chain, e: Event)
    requires cfg.Valid() && e.Present?
    ensures var g := GateAfter(cfg, s, e);
            && g.stats.wouldApply == s.gate.stats.wouldApply + One(Suggests(cfg, s, e))
            && g.stats.feedbacks == s.gate.stats.feedbacks
  {
    UpdateIsRecorded(cfg.yaw, s.gate, GateInputOf(s, e));
    hide G.GateStep;
  }
}
