/** Writing gate suggestions into the localizer under session limits
    (include/robot_slamd/active_scan/yaw_correction_apply.hpp). */
module YawApply {
  import opened Angles
  import opened YawTypes
  import opened Localizer

  datatype ApplyState = Disabled | Idle | Ready | Applied | Rejected | Cooldown | Fault

  datatype ApplyReason =
    | NoReason | DisabledByConfig | NotWritebackMode | WritebackNotEnabled | AcknowledgementMismatch
    | DuplicateCandidate | TooSoon | GateRejected | GateNotWouldApply | ScanEvidenceMissing | MatchEvidenceMissing
    | CorrectionTooLarge | IsLost | LocalizationIsInvalid | IsMoving | TurnsTooFast
    | CountLimit | AngleLimit | LocalizerRejected | Written

  datatype Bucket = GateBucket | SafetyBucket | CooldownBucket

  datatype ApplyStats = ApplyStats(attempts: nat, successes: nat, rejected: nat,
                                   gateRejects: nat, safetyRejects: nat, cooldownRejects: nat, duplicates: nat)

  datatype ApplySnapshot = ApplySnapshot(
    t: real, state: ApplyState, reason: ApplyReason, attempted: bool, applied: bool,
    oldYaw: real, delta: real, newYaw: real, sessionCount: nat, sessionTotal: real, scanId: nat, matchT: real)

  datatype Apply = Apply(state: ApplyState, lastApply: real, count: nat, total: real, lastId: nat, lastT: real,
                         latest: ApplySnapshot, stats: ApplyStats)

  const NO_APPLY := ApplySnapshot(0.0, Idle, NoReason, false, false, 0.0, 0.0, 0.0, 0, 0.0, 0, 0.0)

  const INIT_APPLY := Apply(Idle, -1.0, 0, 0.0, 0, -1.0, NO_APPLY, ApplyStats(0, 0, 0, 0, 0, 0, 0))

  datatype Validity =
    | ValidLocalization | NotInitialized | WasLost | WasDegraded | QualityUnknown | QualityBad | QualityInvalid
                    | NoScanEvidence | NoMatchEvidence | PoseNotFinite | VelocityNotFinite

  /** compute_localization_validity_for_yaw_writeback */
  function LocalizationValidity(h: Heading, env: Env, gate: GateSnapshot): Validity {
    if !h.have then NotInitialized
    else if env.supervisor == Lost then WasLost
    else if env.supervisor == Degraded then WasDegraded
    else if env.quality == NoLevel then QualityUnknown
    else if env.quality == Bad then QualityBad
    else if env.quality == Invalid then QualityInvalid
    else if !gate.scanEvidenceOk then NoScanEvidence
    else if !gate.matchEvidenceOk then NoMatchEvidence
    else if !env.poseFinite then PoseNotFinite
    else if !env.velocityFinite then VelocityNotFinite
    else ValidLocalization
  }

  datatype ApplyInput = ApplyInput(now: real, gate: GateSnapshot, yaw: real, linearSpeed: real, yawRate: real,
                                   supervisor: SupervisorState, locValid: bool)

  predicate IsDuplicate(a: Apply, gate: GateSnapshot) {
    && (gate.scanId != 0 || gate.matchT > 0.0)
    && gate.scanId == a.lastId && Abs(gate.matchT - a.lastT) < 0.000000001
  }

  predicate IsTooSoon(cfg: YawConfig, a: Apply, now: real) {
    a.lastApply >= 0.0 && 0.0 <= now - a.lastApply < cfg.minGap
  }

  /** The first check an attempt fails, or Written if it may be handed to the localizer. */
  function Verdict(cfg: YawConfig, a: Apply, inp: ApplyInput): ApplyReason {
    var gate := inp.gate;
    if IsDuplicate(a, gate) then DuplicateCandidate
    else if IsTooSoon(cfg, a, inp.now) then TooSoon
    else if gate.rejected then GateRejected
    else if cfg.requireWouldApply && !gate.wouldApply then GateNotWouldApply
    else if cfg.requireReason.Some? && gate.reason != cfg.requireReason.value then GateNotWouldApply
    else if cfg.requireScanEvidence && !gate.scanEvidenceOk then ScanEvidenceMissing
    else if cfg.requireMatchEvidence && !gate.matchEvidenceOk then MatchEvidenceMissing
    else if Abs(gate.suggested) > cfg.maxWriteback then CorrectionTooLarge
    else if inp.supervisor == Lost then IsLost
    else if !inp.locValid then LocalizationIsInvalid
    else if Abs(inp.linearSpeed) > cfg.maxLinearSpeed then IsMoving
    else if Abs(Rad2Deg(inp.yawRate)) > cfg.maxYawRateDps then TurnsTooFast
    else if a.count >= cfg.maxCount then CountLimit
    else if a.total + Abs(gate.suggested) > cfg.maxTotal then AngleLimit
    else Written
  }

  function BucketOf(reason: ApplyReason): Bucket {
    match reason
    case GateRejected | GateNotWouldApply | ScanEvidenceMissing | MatchEvidenceMissing => GateBucket
    case TooSoon => CooldownBucket
    case _ => SafetyBucket
  }

  function Snapshot(a: Apply, inp: ApplyInput, state: ApplyState, reason: ApplyReason): ApplySnapshot {
    ApplySnapshot(inp.now, state, reason, false, false, inp.yaw, 0.0, inp.yaw, a.count, a.total,
                  inp.gate.scanId, inp.gate.matchT)
  }

  function CountReject(stats: ApplyStats, b: Bucket): ApplyStats {
    stats.(rejected := stats.rejected + 1,
           gateRejects := stats.gateRejects + (if b == GateBucket then 1 else 0),
           safetyRejects := stats.safetyRejects + (if b == SafetyBucket then 1 else 0),
           cooldownRejects := stats.cooldownRejects + (if b == CooldownBucket then 1 else 0))
  }

  function RejectStep(a: Apply, s: ApplySnapshot, reason: ApplyReason): Apply {
    var state := if BucketOf(reason) == CooldownBucket then Cooldown else Rejected;
    var stats := CountReject(a.stats, BucketOf(reason));
    a.(state := state, latest := s.(state := state, reason := reason, applied := false),
       stats := if reason == DuplicateCandidate then stats.(duplicates := stats.duplicates + 1) else stats)
  }

  function IdleStep(a: Apply, inp: ApplyInput, state: ApplyState, reason: ApplyReason): Apply {
    a.(state := state, latest := Snapshot(a, inp, state, reason))
  }

  function ApplyStep(cfg: YawConfig, lcfg: LocConfig, a: Apply, h: Heading, inp: ApplyInput): (Apply, Heading) {
    if !cfg.enabled || cfg.mode == ModeDisabled then (IdleStep(a, inp, Disabled, DisabledByConfig), h)
    else if cfg.mode != Writeback then (IdleStep(a, inp, Idle, NotWritebackMode), h)
    else if !cfg.writebackEnabled then (IdleStep(a, inp, Fault, WritebackNotEnabled), h)
    else if !cfg.acknowledged then (IdleStep(a, inp, Fault, AcknowledgementMismatch), h)
    else if !inp.gate.HasCandidate() then (IdleStep(a, inp, Idle, NoReason), h)
    else
      var a1 := a.(state := Ready, stats := a.stats.(attempts := a.stats.attempts + 1));
      var s := Snapshot(a, inp, Ready, NoReason).(attempted := true);
      var verdict := Verdict(cfg, a, inp);
      if verdict != Written then (RejectStep(a1, s, verdict), h)
      else WriteStep(lcfg, a1, h, inp, s.(oldYaw := h.yaw, delta := inp.gate.suggested))
  }

  /** The write itself, when no check of the apply stage objects. */
  function WriteStep(lcfg: LocConfig, a: Apply, h: Heading, inp: ApplyInput, s: ApplySnapshot): (Apply, Heading) {
    var delta := Deg2Rad(inp.gate.suggested);
    if !TakesCorrection(lcfg, h, delta) then (RejectStep(a, s.(newYaw := h.yaw), LocalizerRejected), h)
    else
      var h1 := CorrectStep(h, delta);
      var total := a.total + Abs(inp.gate.suggested);
      (a.(state := Applied, lastApply := inp.now, count := a.count + 1, total := total,
          lastId := inp.gate.scanId, lastT := inp.gate.matchT,
          latest := s.(newYaw := h1.yaw, state := Applied, reason := Written, applied := true,
                       sessionCount := a.count + 1, sessionTotal := total),
          stats := a.stats.(successes := a.stats.successes + 1)), h1)
  }

  /** Every attempt is either a success or a rejection, every rejection is in one bucket, and the
      session counter is the number of successes. */
  ghost predicate Accounts(a: Apply) {
    && a.stats.attempts == a.stats.successes + a.stats.rejected
    && a.stats.rejected == a.stats.gateRejects + a.stats.safetyRejects + a.stats.cooldownRejects
    && a.count == a.stats.successes
  }

  predicate Attempts(cfg: YawConfig, inp: ApplyInput) {
    cfg.WritebackOn() && cfg.acknowledged && inp.gate.HasCandidate()
  }

  /** The localizer's own refusal, after every check of the apply stage passed, happens exactly when
      the localizer has not been initialized: its size limit repeats one already checked. */
  lemma {:induction false} LocalizerRefusesIff(cfg: YawConfig, lcfg: LocConfig, a: Apply, h: Heading, inp: ApplyInput)
    requires lcfg.maxWriteback == cfg.maxWriteback
    ensures ApplyStep(cfg, lcfg, a, h, inp).0.latest.reason == LocalizerRejected <==>
            Attempts(cfg, inp) && Verdict(cfg, a, inp) == Written && !h.have
  {
    hide IsDuplicate, CountReject, CorrectStep;
    DegreesAndRadians(inp.gate.suggested, cfg.maxWriteback);
  }

  lemma {:induction false} DegreesAndRadians(d: real, limit: real)
    ensures Abs(Deg2Rad(d)) <= Deg2Rad(limit) <==> Abs(d) <= limit
    ensures Rad2Deg(Abs(Deg2Rad(d))) == Abs(d) && Abs(Deg2Rad(d)) == Deg2Rad(Abs(d))
  {}

  /** A write was made, and these are all the reasons it was allowed and all it changed. */
  ghost predicate Wrote(cfg: YawConfig, a: Apply, h: Heading, inp: ApplyInput, n: Apply, h1: Heading) {
    && Attempts(cfg, inp) && h.have
    && !inp.gate.rejected && inp.locValid && (cfg.requireWouldApply ==> inp.gate.wouldApply)
    && (cfg.requireReason.Some? ==> inp.gate.reason == cfg.requireReason.value)
    && !IsTooSoon(cfg, a, inp.now) && Abs(inp.gate.suggested) <= cfg.maxWriteback
    && h1 == CorrectStep(h, Deg2Rad(inp.gate.suggested))
    && n.count == a.count + 1 <= cfg.maxCount && n.total == a.total + Abs(inp.gate.suggested) <= cfg.maxTotal
    && n.lastApply == inp.now && n.latest.delta == inp.gate.suggested
    && n.latest.scanId == inp.gate.scanId && n.latest.matchT == inp.gate.matchT
  }

  /** What the checks of the apply stage let through. */
  lemma {:induction false} WrittenMeans(cfg: YawConfig, a: Apply, inp: ApplyInput)
    requires Verdict(cfg, a, inp) == Written
    ensures !inp.gate.rejected && (cfg.requireWouldApply ==> inp.gate.wouldApply)
    ensures cfg.requireReason.Some? ==> inp.gate.reason == cfg.requireReason.value
    ensures !IsTooSoon(cfg, a, inp.now) && Abs(inp.gate.suggested) <= cfg.maxWriteback
    ensures a.count < cfg.maxCount && a.total + Abs(inp.gate.suggested) <= cfg.maxTotal && inp.locValid
  {
    hide IsDuplicate, IsTooSoon, Abs, Rad2Deg;
  }

  /** A rejection of one attempt keeps the accounts. */
  lemma {:induction false} RejectKeepsAccounts(a: Apply, s: ApplySnapshot, reason: ApplyReason)
    requires Accounts(a)
    ensures var n := RejectStep(a.(state := Ready, stats := a.stats.(attempts := a.stats.attempts + 1)), s, reason);
            && Accounts(n) && !n.latest.applied && n.count == a.count && n.total == a.total
            && n.lastApply == a.lastApply
            && n.latest.reason == reason
  {}

  lemma {:induction false} ApplyEffect(cfg: YawConfig, lcfg: LocConfig, a: Apply, h: Heading, inp: ApplyInput)
    requires lcfg.maxWriteback == cfg.maxWriteback && Accounts(a)
    ensures var (n, h1) := ApplyStep(cfg, lcfg, a, h, inp);
            && Accounts(n)
            && (if n.latest.applied then Wrote(cfg, a, h, inp, n, h1)
                else h1 == h && n.count == a.count && n.total == a.total && n.lastApply == a.lastApply)
  {
    hide Verdict, CorrectStep, Deg2Rad, Rad2Deg, Abs, RejectStep, IsTooSoon;
    var s := Snapshot(a, inp, Ready, NoReason).(attempted := true);
    var verdict := Verdict(cfg, a, inp);
    if verdict == Written {
      WrittenMeans(cfg, a, inp);
      var s1 := s.(oldYaw := h.yaw, delta := inp.gate.suggested);
      RejectKeepsAccounts(a, s1.(newYaw := h.yaw), LocalizerRejected);
    } else {
      RejectKeepsAccounts(a, s, verdict);
    }
  }

  class YawCorrectionApply {
    const cfg: YawConfig
    var state: ApplyState
    var lastApply: real
    var count: nat
    var total: real
    var lastId: nat
    var lastT: real
    var latest: ApplySnapshot
    var stats: ApplyStats

    function View(): Apply
      reads this
    {
      Apply(state, lastApply, count, total, lastId, lastT, latest, stats)
    }

    constructor (cfg: YawConfig)
      ensures this.cfg == cfg && View() == INIT_APPLY
    {
      this.cfg := cfg;
      state, lastApply, count, total, lastId, lastT := Idle, -1.0, 0, 0.0, 0, -1.0;
      latest, stats := NO_APPLY, ApplyStats(0, 0, 0, 0, 0, 0, 0);
    }

    method Reject(s: ApplySnapshot, reason: ApplyReason)
      modifies this
      ensures View() == RejectStep(old(View()), s, reason)
    {
      var bucket := BucketOf(reason);
      state := if bucket == CooldownBucket then Cooldown else Rejected;
      latest := s.(state := state, reason := reason, applied := false);
      stats := stats.(rejected := stats.rejected + 1);
      if bucket == CooldownBucket {
        stats := stats.(cooldownRejects := stats.cooldownRejects + 1);
      }
      if bucket == GateBucket {
        stats := stats.(gateRejects := stats.gateRejects + 1);
      }
      if bucket == SafetyBucket {
        stats := stats.(safetyRejects := stats.safetyRejects + 1);
      }
      if reason == DuplicateCandidate {
        stats := stats.(duplicates := stats.duplicates + 1);
      }
    }

    /** The part of update before any attempt: switched off, misconfigured, or nothing to do. */
    method Idles(inp: ApplyInput) returns (idle: bool)
      modifies this
      ensures idle <==> !(cfg.WritebackOn() && cfg.acknowledged && inp.gate.HasCandidate())
      ensures forall lcfg, h :: if idle then (View(), h) == ApplyStep(cfg, lcfg, old(View()), h, inp)
                                else View() == old(View())
    {
      idle := true;
      if !cfg.enabled || cfg.mode == ModeDisabled {
        state := Disabled;
        latest := Snapshot(View(), inp, state, DisabledByConfig);
      } else if cfg.mode != Writeback {
        state := Idle;
        latest := Snapshot(View(), inp, state, NotWritebackMode);
      } else if !cfg.writebackEnabled {
        state := Fault;
        latest := Snapshot(View(), inp, state, WritebackNotEnabled);
      } else if !cfg.acknowledged {
        state := Fault;
        latest := Snapshot(View(), inp, state, AcknowledgementMismatch);
      } else if !inp.gate.HasCandidate() {
        state := Idle;
        latest := Snapshot(View(), inp, state, NoReason);
      } else {
        idle := false;
      }
    }

    method Write(localizer: LocalizerObject, inp: ApplyInput, snap: ApplySnapshot)
      modifies this, localizer`h
      ensures (View(), localizer.h) ==
              WriteStep(localizer.cfg, old(View()), old(localizer.h), inp,
                        snap.(oldYaw := old(localizer.h).yaw, delta := inp.gate.suggested))
    {
      hide TakesCorrection, CorrectStep, Abs, RejectStep;
      var s := snap.(oldYaw := localizer.h.yaw, delta := inp.gate.suggested);
      var applied := localizer.ApplyYawCorrectionOnly(Deg2Rad(inp.gate.suggested));
      s := s.(newYaw := localizer.h.yaw);
      if !applied {
        Reject(s, LocalizerRejected);
        return;
      }
      state := Applied;
      lastApply := inp.now;
      count := count + 1;
      total := total + Abs(inp.gate.suggested);
      latest := s.(state := state, reason := Written, applied := true, sessionCount := count, sessionTotal := total);
      stats := stats.(successes := stats.successes + 1);
      lastId, lastT := inp.gate.scanId, inp.gate.matchT;
    }

    method Update(localizer: LocalizerObject, inp: ApplyInput)
      modifies this, localizer`h
      ensures (View(), localizer.h) == ApplyStep(cfg, localizer.cfg, old(View()), old(localizer.h), inp)
    {
      hide IsDuplicate, RejectStep, WriteStep, Snapshot, Abs, Rad2Deg;
      var idle := Idles(inp);
      if idle {
        return;
      }
      var s := Snapshot(View(), inp, Ready, NoReason).(attempted := true);
      var gate := inp.gate;
      ghost var before := View();
      var duplicate := IsDuplicate(View(), gate);
      stats := stats.(attempts := stats.attempts + 1);
      state := Ready;
      var sinceLast := if lastApply >= 0.0 then inp.now - lastApply else -1.0;
      var reason := Written;
      if duplicate {
        reason := DuplicateCandidate;
      } else if sinceLast >= 0.0 && sinceLast < cfg.minGap {
        reason := TooSoon;
      } else if gate.rejected {
        reason := GateRejected;
      } else if cfg.requireWouldApply && !gate.wouldApply {
        reason := GateNotWouldApply;
      } else if cfg.requireReason.Some? && gate.reason != cfg.requireReason.value {
        reason := GateNotWouldApply;
      } else if cfg.requireScanEvidence && !gate.scanEvidenceOk {
        reason := ScanEvidenceMissing;
      } else if cfg.requireMatchEvidence && !gate.matchEvidenceOk {
        reason := MatchEvidenceMissing;
      } else if Abs(gate.suggested) > cfg.maxWriteback {
        reason := CorrectionTooLarge;
      } else if inp.supervisor == Lost {
        reason := IsLost;
      } else if !inp.locValid {
        reason := LocalizationIsInvalid;
      } else if Abs(inp.linearSpeed) > cfg.maxLinearSpeed {
        reason := IsMoving;
      } else if Abs(Rad2Deg(inp.yawRate)) > cfg.maxYawRateDps {
        reason := TurnsTooFast;
      } else if count >= cfg.maxCount {
        reason := CountLimit;
      } else if total + Abs(gate.suggested) > cfg.maxTotal {
        reason := AngleLimit;
      }
      assert reason == Verdict(cfg, before, inp);
      if reason != Written {
        Reject(s, reason);
      } else {
        Write(localizer, inp, s);
      }
    }
  }
}
