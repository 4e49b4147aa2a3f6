/** Configuration and values shared by the yaw write-back chain
    (include/robot_slamd/active_scan/yaw_correction_*.hpp, include/robot_slamd/app/app.hpp). */
module YawTypes {
  import opened Angles

  datatype Option<T> = None | Some(value: T)

  datatype Mode = ModeDisabled | DryRun | Writeback

  datatype CompletionSource = ActiveScanOnly | YawMatchOnly | Either

  /** Why the gate decided as it did. */
  datatype GateReason =
    | GateDisabled | GateIdle | InCooldown | CandidateSeen | WouldApplyDryRun | FeedbackCooldown
    | MatchNotUsable | MatchReasonNotOk | LowBestScore | LowScoreMargin | LowInlierRatio | CurveFlat | Multimodal
    | CandidateTooLarge | CandidateTooSmall | RobotMoving | YawRateTooHigh | LocalizationInvalid | SupervisorLost
    | ActiveScanIncomplete | MatchIncomplete | CoverageTooLow | SamplesTooLow | BinsTooLow | BinRatioTooLow
    | ScanIncomplete | NotEnough | SpreadTooLarge

  datatype SupervisorState =
    Init | SensorCheck | MappingReady | Mapping | ActiveScanRecommended | Degraded | Lost

  datatype QualityLevel = NoLevel | NoData | Good | Low | DegradedQuality | Bad | Invalid

  /** The yaw_correction and yaw_correction_post_apply sections of the configuration. */
  datatype YawConfig = YawConfig(
    enabled: bool, mode: Mode, writebackEnabled: bool, acknowledged: bool,
    // gate
    requireUsable: bool, requireMappingState: bool, requireLowSpeed: bool, requireScanComplete: bool,
    source: CompletionSource, allowMatchEvidence: bool, requireAttempted: bool,
    minObservedYaw: real, minSamples: int, minBins: int, minBinRatio: real,
    maxLinearSpeed: real, maxYawRateDps: real,
    minBestScore: real, minMargin: real, minInlierRatio: real, maxFlatness: real,
    maxCandidate: real, minCandidate: real, gain: real, maxStep: real, minStep: real,
    window: int, maxSpread: real, cooldown: real,
    // write-back
    maxWriteback: real, maxTotal: real, maxCount: int, minGap: real,
    requireWouldApply: bool, requireReason: Option<GateReason>,
    requireScanEvidence: bool, requireMatchEvidence: bool,
    // validation after a write
    postEnabled: bool, timeout: real, requireNewScanId: bool, requireNewerMatch: bool,
    maxPostCandidate: real, minImprovement: real, minFraction: real, maxWorse: real)
  {
    /** What validate_config demands of these sections. */
    ghost predicate Valid() {
      && 0.0 < gain <= 1.0 && maxStep > 0.0 && 0.0 <= minStep <= maxStep
      && maxCandidate > 0.0 && 0.0 <= minCandidate <= maxCandidate
      && window >= 1 && maxSpread >= 0.0 && cooldown >= 0.0
      && maxWriteback > 0.0 && maxTotal > 0.0 && maxCount > 0 && minGap >= 0.0
      && timeout > 0.0 && minImprovement >= 0.0 && minFraction >= 0.0 && maxWorse >= 0.0 && maxPostCandidate > 0.0
    }

    predicate GateEnabled() { enabled && mode != ModeDisabled }

    predicate WritebackOn() { enabled && mode == Writeback && writebackEnabled }
  }

  /** One result of the scan matcher. */
  datatype Match = Match(
    scanId: nat, t: real, attempted: bool, usable: bool, reasonOk: bool,
    delta: real, bestScore: real, margin: real, inlierRatio: real,
    curveFlat: bool, flatness: real, multimodal: bool,
    observedYaw: real, samples: int, bins: int, binRatio: real)

  /** What the rest of the application contributes to one update of the chain. `scanEvidence` is whether
      the active-scan snapshots show a completed or useful scan; the two flags say whether the pose and
      the velocity are finite numbers. */
  datatype Env = Env(supervisor: SupervisorState, quality: QualityLevel, scanEvidence: bool,
                     poseFinite: bool, velocityFinite: bool)

  datatype GateInput = GateInput(now: real, m: Match, env: Env, yaw: real, linearSpeed: real, yawRate: real)

  /** The fields of the gate's snapshot that later stages read. */
  datatype GateSnapshot = GateSnapshot(
    t: real, reason: GateReason, candidateSeen: bool, wouldApply: bool, rejected: bool,
    candidate: real, suggested: real, newYaw: real, count: nat, spread: real,
    scanEvidenceOk: bool, matchEvidenceOk: bool, scanId: nat, matchT: real)
  {
    /** The gate has something to say about a new candidate. */
    predicate HasCandidate() { candidateSeen || wouldApply || rejected }
  }

  predicate SameMoment(a: real, b: real) { Abs(a - b) <= 0.000000001 }

  /** The last n values of a history. */
  function LastN(s: seq<real>, n: nat): seq<real> { if |s| <= n then s else s[|s| - n..] }

  function MinOf(s: seq<real>): (r: real)
    requires s != []
    ensures r in s && forall i :: 0 <= i < |s| ==> r <= s[i]
  {
    if |s| == 1 then s[0] else
      var rest := MinOf(s[1..]);
      if s[0] <= rest then s[0] else rest
  }

  function MaxOf(s: seq<real>): (r: real)
    requires s != []
    ensures r in s && forall i :: 0 <= i < |s| ==> s[i] <= r
  {
    if |s| == 1 then s[0] else
      var rest := MaxOf(s[1..]);
      if s[0] >= rest then s[0] else rest
  }
}
