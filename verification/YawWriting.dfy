/** When exactly the chain writes a correction, and why it refuses
    (include/robot_slamd/active_scan/yaw_correction_apply.hpp). */
module YawWriting {
  import opened Angles
  import opened YawTypes
  import opened Localizer
  import opened YawChain
  import opened YawTheorems
  import opened YawBacking
  import opened YawAcceptance
  import G = YawGate
  import A = YawApply
  import P = PostApply

  // ----- one attempt -----

  /** The localizer may be corrected: it has started, and nothing says that its pose is not to be trusted. */
  ghost predicate IsTrusted(h: Heading, env: Env, gate: GateSnapshot) {
    && h.have && env.supervisor != Lost && env.supervisor != Degraded
    && (env.quality == NoData || env.quality == Good || env.quality == Low || env.quality == DegradedQuality)
    && gate.scanEvidenceOk && gate.matchEvidenceOk && env.poseFinite && env.velocityFinite
  }

  lemma {:induction false} TrustedIff(h: Heading, env: Env, gate: GateSnapshot)
    ensures A.LocalizationValidity(h, env, gate) == A.ValidLocalization <==> IsTrusted(h, env, gate)
  {}

  /** The report is on the match that the session wrote last. */
  ghost predicate Repeats(a: A.Apply, gate: GateSnapshot) {
    && gate.scanId == a.lastId && -0.000000001 < gate.matchT - a.lastT < 0.000000001
    && (gate.scanId > 0 || gate.matchT > 0.0)
  }

  /** The place of a refusal in the order of the checks. */
  function Rank(why: A.ApplyReason): nat {
    match why
    case DuplicateCandidate => 0
    case TooSoon => 1
    case GateRejected => 2
    case GateNotWouldApply => 3
    case ScanEvidenceMissing => 4
    case MatchEvidenceMissing => 5
    case CorrectionTooLarge => 6
    case IsLost => 7
    case LocalizationIsInvalid => 8
    case IsMoving => 9
    case TurnsTooFast => 10
    case CountLimit => 11
    case AngleLimit => 12
    case _ => 13
  }

  /** What speaks for refusing an attempt on this ground. */
  ghost predicate Forbids(cfg: YawConfig, a: A.Apply, inp: A.ApplyInput, why: A.ApplyReason) {
    var gate, size := inp.gate, Abs(inp.gate.suggested);
    match why
    case DuplicateCandidate => Repeats(a, gate)
    case TooSoon => 0.0 <= a.lastApply <= inp.now && inp.now < a.lastApply + cfg.minGap
    case GateRejected => gate.rejected
    case GateNotWouldApply =>
      || (cfg.requireWouldApply && !gate.wouldApply)
      || (cfg.requireReason.Some? && cfg.requireReason != Some(gate.reason))
    case ScanEvidenceMissing => cfg.requireScanEvidence && !gate.scanEvidenceOk
    case MatchEvidenceMissing => cfg.requireMatchEvidence && !gate.matchEvidenceOk
    case CorrectionTooLarge => cfg.maxWriteback < size
    case IsLost => inp.supervisor == Lost
    case LocalizationIsInvalid => !inp.locValid
    case IsMoving => cfg.maxLinearSpeed < Abs(inp.linearSpeed)
    case TurnsTooFast => Deg2Rad(cfg.maxYawRateDps) < Abs(inp.yawRate)
    case CountLimit => a.count + 1 > cfg.maxCount
    case AngleLimit => cfg.maxTotal < a.total + size
    case _ => false
  }

  /** The checks pass exactly when nothing forbids the write; otherwise they name the first ground there is. */
  ghost predicate NamesFirst(cfg: YawConfig, a: A.Apply, inp: A.ApplyInput, why: A.ApplyReason) {
    if why == A.Written then forall other :: !Forbids(cfg, a, inp, other)
    else Forbids(cfg, a, inp, why) && forall other :: Forbids(cfg, a, inp, other) ==> Rank(why) <= Rank(other)
  }

  lemma {:induction false} RateInDegrees(rate: real, limit: real)
    ensures Abs(Rad2Deg(rate)) > limit <==> Deg2Rad(limit) < Abs(rate)
  {}

  lemma {:induction false} VerdictIsFirst(cfg: YawConfig, a: A.Apply, inp: A.ApplyInput, other: A.ApplyReason)
    ensures var why := A.Verdict(cfg, a, inp);
            && (why == A.Written ==> !Forbids(cfg, a, inp, other))
            && (why != A.Written ==> Forbids(cfg, a, inp, why))
            && (Forbids(cfg, a, inp, other) ==> Rank(why) <= Rank(other))
  {
    RateInDegrees(inp.yawRate, cfg.maxYawRateDps);
    hide Rad2Deg, Deg2Rad;
  }

  lemma {:induction false} VerdictNamesFirst(cfg: YawConfig, a: A.Apply, inp: A.ApplyInput)
    ensures NamesFirst(cfg, a, inp, A.Verdict(cfg, a, inp))
  {
    hide Forbids, Rank, A.Verdict;
    forall other
      ensures A.Verdict(cfg, a, inp) == A.Written ==> !Forbids(cfg, a, inp, other)
      ensures A.Verdict(cfg, a, inp) != A.Written ==> Forbids(cfg, a, inp, A.Verdict(cfg, a, inp))
      ensures Forbids(cfg, a, inp, other) ==> Rank(A.Verdict(cfg, a, inp)) <= Rank(other)
    {
      VerdictIsFirst(cfg, a, inp, other);
    }
  }

  /** A refusal is counted once, under the gate, the waiting time, or safety. */
  ghost predicate IsCounted(before: A.ApplyStats, after: A.ApplyStats, why: A.ApplyReason) {
    var byGate := why in {A.GateRejected, A.GateNotWouldApply, A.ScanEvidenceMissing, A.MatchEvidenceMissing};
    && after.attempts == before.attempts + 1 && after.successes == before.successes
    && after.rejected == before.rejected + 1
    && after.gateRejects == before.gateRejects + (if byGate then 1 else 0)
    && after.cooldownRejects == before.cooldownRejects + (if why == A.TooSoon then 1 else 0)
    && after.safetyRejects == before.safetyRejects + (if byGate || why == A.TooSoon then 0 else 1)
    && after.duplicates == before.duplicates + (if why == A.DuplicateCandidate then 1 else 0)
  }

  lemma {:induction false} RefusalIsCounted(a: A.Apply, s: A.ApplySnapshot, why: A.ApplyReason)
    ensures var n := A.RejectStep(a.(state := A.Ready, stats := a.stats.(attempts := a.stats.attempts + 1)), s, why);
            && IsCounted(a.stats, n.stats, why) && n.latest.reason == why && !n.latest.applied
            && n.state == (if why == A.TooSoon then A.Cooldown else A.Rejected)
  {}

  /** An attempt needs all switches and a report of the gate on a new summary. */
  ghost predicate IsAttempt(cfg: YawConfig, inp: A.ApplyInput) {
    && cfg.enabled && cfg.mode == Writeback && cfg.writebackEnabled && cfg.acknowledged
    && (inp.gate.candidateSeen || inp.gate.wouldApply || inp.gate.rejected)
  }

  /** What becomes of an attempt: it is written exactly when the localizer has started and nothing forbids it, and
      otherwise refused and counted on the first ground there is. */
  lemma {:induction false} AttemptMeans(cfg: YawConfig, lcfg: LocConfig, a: A.Apply, h: Heading, inp: A.ApplyInput)
    requires lcfg.maxWriteback == cfg.maxWriteback
    ensures var (n, h1) := A.ApplyStep(cfg, lcfg, a, h, inp);
            && (n.latest.applied <==> IsAttempt(cfg, inp) && h.have && NamesFirst(cfg, a, inp, A.Written))
            && (!IsAttempt(cfg, inp) ==> n.stats == a.stats)
            && (IsAttempt(cfg, inp) && !n.latest.applied ==>
                  && IsCounted(a.stats, n.stats, n.latest.reason)
                  && (NamesFirst(cfg, a, inp, n.latest.reason)
                      || (NamesFirst(cfg, a, inp, A.Written) && n.latest.reason == A.LocalizerRejected)))
  {
    var verdict := A.Verdict(cfg, a, inp);
    VerdictNamesFirst(cfg, a, inp);
    A.LocalizerRefusesIff(cfg, lcfg, a, h, inp);
    OneFirst(cfg, a, inp, verdict);
    hide NamesFirst, A.Verdict, A.RejectStep, IsCounted, CorrectStep, TakesCorrection, Abs, Deg2Rad;
    var s := A.Snapshot(a, inp, A.Ready, A.NoReason).(attempted := true);
    RefusalIsCounted(a, s, verdict);
    RefusalIsCounted(a, s.(oldYaw := h.yaw, delta := inp.gate.suggested, newYaw := h.yaw), A.LocalizerRejected);
  }

  lemma {:induction false} OneFirst(cfg: YawConfig, a: A.Apply, inp: A.ApplyInput, why: A.ApplyReason)
    requires NamesFirst(cfg, a, inp, why)
    ensures NamesFirst(cfg, a, inp, A.Written) <==> why == A.Written
  {
    hide Forbids, Rank;
  }

  // ----- over runs -----

  ghost function NumWrites(cfg: Configs, evs: seq<Event>, n: nat): nat
    requires cfg.Valid() && n <= |evs|
  {
    if n == 0 then 0 else NumWrites(cfg, evs, n - 1) + (if WritesAt(cfg, evs, n - 1) then 1 else 0)
  }

  /** Degrees written by the first n events, without their signs. */
  ghost function DegreesWritten(cfg: Configs, evs: seq<Event>, n: nat): real
    requires cfg.Valid() && n <= |evs|
  {
    if n == 0 then 0.0
    else DegreesWritten(cfg, evs, n - 1) + (if WritesAt(cfg, evs, n - 1) then Abs(DeltaAt(cfg, evs, n - 1)) else 0.0)
  }

  ghost predicate RecallsWrite(cfg: Configs, evs: seq<Event>, n: nat, a: A.Apply, i: nat)
    requires cfg.Valid() && n <= |evs|
  {
    && IsLastWrite(cfg, evs, i, n)
    && a.lastApply == evs[i].now && a.lastId == evs[i].m.scanId && a.lastT == evs[i].m.t
  }

  /** The session's memory is of no write, or of the last one. */
  ghost predicate Recalls(cfg: Configs, evs: seq<Event>, n: nat, a: A.Apply)
    requires cfg.Valid() && n <= |evs|
  {
    || (a.lastApply == -1.0 && a.lastId == 0 && a.lastT == -1.0 && forall j: nat :: j < n ==> !WritesAt(cfg, evs, j))
    || exists i: nat :: RecallsWrite(cfg, evs, n, a, i)
  }

  lemma {:induction false} SessionStep(cfg: Configs, s: Chain, e: Event)
    requires cfg.Valid() && Inv(cfg, s)
    ensures var a, n := s.apply, Step(cfg, s, e).apply;
            if Writes(cfg, s, e) then
              && e.Present? && n.count == a.count + 1 && n.total == a.total + Abs(n.latest.delta)
              && n.lastApply == e.now && n.lastId == e.m.scanId && n.lastT == e.m.t
            else
              && n.count == a.count && n.total == a.total && n.lastApply == a.lastApply && n.lastId == a.lastId
              && n.lastT == a.lastT
  {
    StepHasEffect(cfg, s, e);
    if e.Present? && cfg.yaw.GateEnabled() {
      WindowStaysShort(cfg, s);
      GateReports(cfg.yaw, s.gate, GateInputOf(s, e));
      MemoryOfAttempt(cfg.yaw, cfg.loc, s.apply, s.h, ApplyInputOf(s.h, GateAfter(cfg, s, e).latest, e));
    }
    hide GateAfter, G.GateStep, A.ApplyStep, A.Attempts, A.Accounts, A.LocalizationValidity, HeadingConsistent, Reports;
    hide G.Accepts, Abs, HasScan, IsScanMatch, PassesOver, P.PostStep, G.WindowStep;
  }

  lemma {:induction false} WindowStaysShort(cfg: Configs, s: Chain)
    requires cfg.Valid() && Inv(cfg, s)
    ensures |s.gate.window| <= cfg.yaw.window
  {}

  lemma {:induction false} MemoryOfAttempt(cfg: YawConfig, lcfg: LocConfig, a: A.Apply, h: Heading, inp: A.ApplyInput)
    ensures var n := A.ApplyStep(cfg, lcfg, a, h, inp).0;
            if n.latest.applied then n.lastId == inp.gate.scanId && n.lastT == inp.gate.matchT
            else n.lastId == a.lastId && n.lastT == a.lastT
  {
    hide A.Verdict, CorrectStep, TakesCorrection, Deg2Rad, Abs, A.CountReject;
  }

  lemma {:induction false} RecallsOn(cfg: Configs, evs: seq<Event>, n: nat, a: A.Apply, b: A.Apply)
    requires cfg.Valid() && n < |evs| && Recalls(cfg, evs, n, a) && !WritesAt(cfg, evs, n)
    requires a.lastApply == b.lastApply && a.lastId == b.lastId && a.lastT == b.lastT
    ensures Recalls(cfg, evs, n + 1, b)
  {
    hide WritesAt;
    if i: nat :| RecallsWrite(cfg, evs, n, a, i) {
      assert RecallsWrite(cfg, evs, n + 1, b, i);
    }
  }

  /** Over every run the session counts its writes, adds up their sizes, and remembers the last of them. */
  lemma {:induction false} SessionRemembers(cfg: Configs, evs: seq<Event>, n: nat)
    requires cfg.Valid() && n <= |evs|
    ensures var a := Run(cfg, evs[..n]).apply;
            && a.count == NumWrites(cfg, evs, n) && a.total == DegreesWritten(cfg, evs, n) && Recalls(cfg, evs, n, a)
  {
    hide Step, Inv, Writes, Abs;
    if n == 0 {
      assert evs[..0] == [];
    } else {
      SessionRemembers(cfg, evs, n - 1);
      RunStep(cfg, evs, n - 1);
      RunHasInv(cfg, evs[..n - 1]);
      SessionStep(cfg, Before(cfg, evs, n - 1), evs[n - 1]);
      hide Run;
      if WritesAt(cfg, evs, n - 1) {
        assert RecallsWrite(cfg, evs, n, Run(cfg, evs[..n]).apply, n - 1);
      } else {
        RecallsOn(cfg, evs, n - 1, Before(cfg, evs, n - 1).apply, Run(cfg, evs[..n]).apply);
      }
    }
  }

  lemma {:induction false} StartStep(cfg: Configs, s: Chain, e: Event)
    requires cfg.Valid() && Inv(cfg, s)
    ensures Step(cfg, s, e).h.have <==> s.h.have || e.Odometry?
  {
    StepHasEffect(cfg, s, e);
    hide GateAfter, ApplyFromGate, WrapPi, Inv, A.Attempts, A.IsTooSoon, Deg2Rad, Abs;
  }

  /** The localizer has started exactly when there was an odometry step. */
  lemma {:induction false} StartedIff(cfg: Configs, evs: seq<Event>, n: nat)
    requires cfg.Valid() && n <= |evs|
    ensures Run(cfg, evs[..n]).h.have <==> exists j: nat :: j < n && evs[j].Odometry?
  {
    hide Step, Inv, Writes, Abs;
    if n == 0 {
      assert evs[..0] == [];
    } else {
      StartedIff(cfg, evs, n - 1);
      RunStep(cfg, evs, n - 1);
      RunHasInv(cfg, evs[..n - 1]);
      StartStep(cfg, Before(cfg, evs, n - 1), evs[n - 1]);
      hide Run;
    }
  }

  /** The summary is not the one written before, and comes the waiting time after that write. */
  ghost predicate IsNewAfter(cfg: YawConfig, before: Event, e: Event)
    requires before.Present? && e.Present?
  {
    && (before.m.scanId == e.m.scanId && (e.m.scanId > 0 || e.m.t > 0.0) ==> Abs(e.m.t - before.m.t) >= 0.000000001)
    && (0.0 <= before.now <= e.now ==> e.now - before.now >= cfg.minGap)
  }

  /** Everything that allows a write at event n: the switches; a report of the gate that is no rejection; a started
      and trusted localizer with evidence of a scan; a slow robot; a correction within the limits of the session; and
      an earlier write, if any, that was of another summary and is far enough back. */
  ghost predicate Allows(cfg: Configs, evs: seq<Event>, n: nat)
    requires cfg.Valid() && n < |evs| && evs[n].Present?
  {
    var e, s, yaw := evs[n], Before(cfg, evs, n), cfg.yaw;
    var report := GateAfter(cfg, s, e).latest;
    && yaw.enabled && yaw.mode == Writeback && yaw.writebackEnabled && yaw.acknowledged
    && (report.candidateSeen || report.wouldApply) && !report.rejected
    && (yaw.requireWouldApply ==> report.wouldApply)
    && (yaw.requireReason.Some? ==> yaw.requireReason == Some(report.reason))
    && (exists j: nat :: j < n && evs[j].Odometry?)
    && e.env.supervisor != Lost && e.env.supervisor != Degraded
    && e.env.quality != NoLevel && e.env.quality != Bad && e.env.quality != Invalid
    && e.env.poseFinite && e.env.velocityFinite
    && HasScan(yaw, GateInputOf(s, e)) && IsScanMatch(yaw, e.m)
    && Abs(s.h.v) <= yaw.maxLinearSpeed && Abs(s.h.w) <= Deg2Rad(yaw.maxYawRateDps)
    && Abs(report.suggested) <= yaw.maxWriteback
    && NumWrites(cfg, evs, n) < yaw.maxCount
    && DegreesWritten(cfg, evs, n) + Abs(report.suggested) <= yaw.maxTotal
    && forall i: nat :: IsLastWrite(cfg, evs, i, n) ==> IsNewAfter(cfg.yaw, evs[i], e)
  }

  /** Nothing forbids the write, ground by ground. */
  ghost predicate Clears(cfg: YawConfig, a: A.Apply, inp: A.ApplyInput) {
    var gate := inp.gate;
    && !Repeats(a, gate) && !(0.0 <= a.lastApply <= inp.now && inp.now < a.lastApply + cfg.minGap)
    && !gate.rejected && (cfg.requireWouldApply ==> gate.wouldApply)
    && (cfg.requireReason.Some? ==> cfg.requireReason == Some(gate.reason))
    && inp.locValid && inp.supervisor != Lost && gate.scanEvidenceOk && gate.matchEvidenceOk
    && Abs(inp.linearSpeed) <= cfg.maxLinearSpeed && Abs(inp.yawRate) <= Deg2Rad(cfg.maxYawRateDps)
    && Abs(gate.suggested) <= cfg.maxWriteback && a.count < cfg.maxCount
    && a.total + Abs(gate.suggested) <= cfg.maxTotal
  }

  lemma {:induction false} ClearsIff(cfg: YawConfig, a: A.Apply, inp: A.ApplyInput)
    requires inp.locValid ==> inp.gate.scanEvidenceOk && inp.gate.matchEvidenceOk
    ensures NamesFirst(cfg, a, inp, A.Written) <==> Clears(cfg, a, inp)
  {
    hide Abs, Deg2Rad, Repeats;
    if NamesFirst(cfg, a, inp, A.Written) {
      assert !Forbids(cfg, a, inp, A.DuplicateCandidate) && !Forbids(cfg, a, inp, A.TooSoon);
      assert !Forbids(cfg, a, inp, A.GateRejected) && !Forbids(cfg, a, inp, A.GateNotWouldApply);
      assert !Forbids(cfg, a, inp, A.CorrectionTooLarge) && !Forbids(cfg, a, inp, A.IsLost);
      assert !Forbids(cfg, a, inp, A.LocalizationIsInvalid) && !Forbids(cfg, a, inp, A.IsMoving);
      assert !Forbids(cfg, a, inp, A.TurnsTooFast) && !Forbids(cfg, a, inp, A.CountLimit);
      assert !Forbids(cfg, a, inp, A.AngleLimit);
    }
  }

  /** Whether a state writes, in terms of the attempt it makes. */
  lemma {:induction false} WritesInState(cfg: Configs, s: Chain, e: Event)
    requires cfg.Valid() && e.Present?
    ensures var inp := ApplyInputOf(s.h, GateAfter(cfg, s, e).latest, e);
            Writes(cfg, s, e) <==> IsAttempt(cfg.yaw, inp) && s.h.have && Clears(cfg.yaw, s.apply, inp)
    ensures ApplyInputOf(s.h, GateAfter(cfg, s, e).latest, e).locValid <==>
            IsTrusted(s.h, e.env, GateAfter(cfg, s, e).latest)
  {
    var inp := ApplyInputOf(s.h, GateAfter(cfg, s, e).latest, e);
    TrustedIff(s.h, e.env, inp.gate);
    ClearsIff(cfg.yaw, s.apply, inp);
    AttemptMeans(cfg.yaw, cfg.loc, s.apply, s.h, inp);
    hide G.GateStep, A.ApplyStep, P.PostStep, G.FeedbackStep, A.LocalizationValidity, Clears, NamesFirst, IsCounted;
  }

  lemma {:induction false} MemoryClears(cfg: Configs, evs: seq<Event>, n: nat, a: A.Apply, gate: GateSnapshot)
    requires cfg.Valid() && n < |evs| && evs[n].Present? && Recalls(cfg, evs, n, a)
    requires gate.scanId == evs[n].m.scanId && gate.matchT == evs[n].m.t
    ensures !Repeats(a, gate) && !(0.0 <= a.lastApply <= evs[n].now && evs[n].now < a.lastApply + cfg.yaw.minGap) <==>
            forall i: nat :: IsLastWrite(cfg, evs, i, n) ==> IsNewAfter(cfg.yaw, evs[i], evs[n])
  {
    hide WritesAt, IsLastWrite;
    if i: nat :| RecallsWrite(cfg, evs, n, a, i) {
      LastWriteIsUnique(cfg, evs, i, n);
    } else {
      NoLastWrite(cfg, evs, n);
    }
  }

  lemma {:induction false} NoLastWrite(cfg: Configs, evs: seq<Event>, n: nat)
    requires cfg.Valid() && n <= |evs| && forall j: nat :: j < n ==> !WritesAt(cfg, evs, j)
    ensures forall i: nat :: !IsLastWrite(cfg, evs, i, n)
  {
    hide WritesAt;
  }

  /** What the report on event n is about. */
  lemma {:induction false} ReportOfState(cfg: Configs, evs: seq<Event>, n: nat)
    requires cfg.Valid() && cfg.yaw.GateEnabled() && n < |evs| && evs[n].Present?
    ensures var s, e := Before(cfg, evs, n), evs[n];
            var report := GateAfter(cfg, s, e).latest;
            && report.scanId == e.m.scanId && report.matchT == e.m.t
            && (report.scanEvidenceOk <==> HasScan(cfg.yaw, GateInputOf(s, e)))
            && (report.matchEvidenceOk <==> IsScanMatch(cfg.yaw, e.m))
  {
    hide Run, G.GateStep, HasScan, IsScanMatch, Reports, PassesOver, IsExamined, IsSound, G.Accepts, G.WindowStep;
    WindowFits(cfg, evs[..n]);
    GateReports(cfg.yaw, Before(cfg, evs, n).gate, GateInputOf(Before(cfg, evs, n), evs[n]));
  }

  lemma {:induction false} AllowsIff(cfg: Configs, evs: seq<Event>, n: nat)
    requires cfg.Valid() && cfg.yaw.GateEnabled() && n < |evs| && evs[n].Present?
    ensures var s, e := Before(cfg, evs, n), evs[n];
            var inp := ApplyInputOf(s.h, GateAfter(cfg, s, e).latest, e);
            Allows(cfg, evs, n) <==> IsAttempt(cfg.yaw, inp) && s.h.have && Clears(cfg.yaw, s.apply, inp)
  {
    var s, e := Before(cfg, evs, n), evs[n];
    hide Run, GateAfter, NumWrites, DegreesWritten, Recalls, Repeats, HasScan, IsScanMatch, Abs, Deg2Rad, IsLastWrite,
      IsNewAfter, A.LocalizationValidity;
    ReportOfState(cfg, evs, n);
    SessionRemembers(cfg, evs, n);
    StartedIff(cfg, evs, n);
    WritesInState(cfg, s, e);
    MemoryClears(cfg, evs, n, s.apply, GateAfter(cfg, s, e).latest);
  }

  /** Over every run: an event makes a write exactly when it presents a summary and everything allows the write. */
  lemma {:induction false} WritesIff(cfg: Configs, evs: seq<Event>, n: nat)
    requires cfg.Valid() && n < |evs|
    ensures WritesAt(cfg, evs, n) <==> evs[n].Present? && Allows(cfg, evs, n)
  {
    var s, e := Before(cfg, evs, n), evs[n];
    hide Run, Step, GateAfter, Clears, NumWrites, DegreesWritten, HasScan, IsScanMatch, Abs, Deg2Rad, IsLastWrite;
    if e.Present? && cfg.yaw.GateEnabled() {
      WritesInState(cfg, s, e);
      AllowsIff(cfg, evs, n);
    }
  }
}
