/** Dead reckoning with a separate heading correction (include/robot_slamd/mapping/localizer.hpp).
    x and y are not part of this model. */
module Localizer {
  import opened Angles

  datatype LocConfig = LocConfig(
    ticksPerRev: int, radiusLeft: real, radiusRight: real, wheelBase: real, maxWheelSpeed: real,
    lpfAlpha: real, spike: real, fusionAlpha: real,
    stationaryLinear: real, stationaryAngular: real, staticGyro: real, biasAlpha: real,
    maxWriteback: real) // yaw_correction_max_writeback_abs_deg
  {
    /** What validate_config demands of them. */
    ghost predicate Valid() {
      && ticksPerRev > 0 && wheelBase > 0.0 && radiusLeft > 0.0 && radiusRight > 0.0 && maxWheelSpeed > 0.0
      && 0.0 <= lpfAlpha <= 1.0 && spike > 0.0 && 0.0 <= fusionAlpha <= 1.0 && 0.0 <= biasAlpha <= 1.0
    }
  }

  datatype Ticks = Ticks(left: int, right: int)

  /** The part of the localizer that the write-back chain reads and writes. */
  datatype Heading = Heading(have: bool, yaw: real, fused: real, offset: real, applyCount: nat, totalAbsDeg: real,
                             v: real, w: real)

  const INIT_HEADING := Heading(false, 0.0, 0.0, 0.0, 0, 0.0, 0.0, 0.0)

  datatype Loc = Loc(
    h: Heading, last: Ticks, haveFilter: bool,
    yawEnc: real, yawImu: real, gyroBias: real, gyro: real,
    dl: real, dr: real, dyawEnc: real, stationary: bool,
    rejectedEncoder: nat, spikes: nat, biasUpdates: nat)

  const INIT_LOC := Loc(INIT_HEADING, Ticks(0, 0), false, 0.0, 0.0, 0.0, 0.0, 0.0, 0.0, 0.0, false, 0, 0, 0)

  function WheelMetres(ticks: int, perRev: int, radius: real): real
    requires perRev > 0
  {
    ticks as real / perRev as real * 2.0 * PI * radius
  }

  /** Encoder distances of one step, zero when either wheel seems to have jumped. */
  function Wheels(cfg: LocConfig, s: Loc, e: Ticks, dt: real): (r: (bool, real, real))
    requires cfg.Valid() && dt > 0.0
  {
    var dl := WheelMetres(e.left - s.last.left, cfg.ticksPerRev, cfg.radiusLeft);
    var dr := WheelMetres(e.right - s.last.right, cfg.ticksPerRev, cfg.radiusRight);
    var limit := Max(0.01, cfg.maxWheelSpeed);
    if Abs(dl / dt) > limit || Abs(dr / dt) > limit then (true, 0.0, 0.0) else (false, dl, dr)
  }

  /** Low-pass filter of the gyro, which ignores spikes. */
  function Filter(cfg: LocConfig, s: Loc, raw: real): (r: (bool, real)) {
    var prev := if s.haveFilter then s.gyro else raw;
    if Abs(raw) > cfg.spike || Abs(raw - prev) > cfg.spike then (true, prev)
    else (false, Blend(cfg.lpfAlpha, prev, raw))
  }

  /** The gyro's share of the difference between the two headings. */
  function GyroShare(cfg: LocConfig, yawEnc: real, yawImu: real): real {
    (1.0 - cfg.fusionAlpha) * WrapPi(yawImu - yawEnc)
  }

  function Fuse(cfg: LocConfig, yawEnc: real, yawImu: real): real { WrapPi(yawEnc + GyroShare(cfg, yawEnc, yawImu)) }

  function Turned(yawImu: real, gyro: real, bias: real, dt: real): real { WrapPi(yawImu + (gyro - bias) * dt) }

  function Rate(x: real, dt: real): real
    requires dt > 0.0
  {
    x / dt
  }

  function Blend(alpha: real, before: real, latest: real): real { (1.0 - alpha) * before + alpha * latest }

  predicate IsStationary(cfg: LocConfig, v: real, w: real, gyro: real, bias: real) {
    && Abs(v) <= cfg.stationaryLinear && Abs(w) <= cfg.stationaryAngular
    && Abs(gyro - bias) <= Max(cfg.staticGyro, cfg.stationaryAngular)
  }

  /** The effect of one odometry step on the heading: whatever uncorrected heading the sensors gave,
      the correction offset is added on top. */
  function MoveStep(h: Heading, fused: real, v: real, w: real): Heading {
    h.(fused := fused, yaw := WrapPi(fused + h.offset), v := v, w := w)
  }

  function SenseStep(cfg: LocConfig, s: Loc, e: Ticks, gyroZ: real, dt: real): Loc
    requires cfg.Valid() && dt > 0.0
  {
    var (bad, dl, dr) := Wheels(cfg, s, e, dt);
    var (spike, gyro) := Filter(cfg, s, gyroZ);
    s.(last := e, dl := dl, dr := dr, gyro := gyro, haveFilter := true,
       rejectedEncoder := s.rejectedEncoder + (if bad then 1 else 0), spikes := s.spikes + (if spike then 1 else 0))
  }

  function IntegrateStep(cfg: LocConfig, s: Loc, dt: real): Loc
    requires cfg.Valid() && dt > 0.0
  {
    var dyaw := Rate(s.dr - s.dl, cfg.wheelBase);
    var yawEnc := WrapPi(s.yawEnc + dyaw);
    var yawImu := Turned(s.yawImu, s.gyro, s.gyroBias, dt);
    var h := MoveStep(s.h, Fuse(cfg, yawEnc, yawImu), Rate(0.5 * (s.dr + s.dl), dt), Rate(dyaw, dt));
    s.(h := h, dyawEnc := dyaw, yawEnc := yawEnc, yawImu := yawImu,
       stationary := IsStationary(cfg, h.v, h.w, s.gyro, s.gyroBias))
  }

  function AdaptStep(cfg: LocConfig, s: Loc): Loc {
    if s.stationary && cfg.biasAlpha > 0.0 then
      s.(gyroBias := Blend(cfg.biasAlpha, s.gyroBias, s.gyro), biasUpdates := s.biasUpdates + 1)
    else s
  }

  function OdometryStep(cfg: LocConfig, s: Loc, e: Ticks, gyroZ: real, dt: real): Loc
    requires cfg.Valid()
  {
    if !s.h.have then s.(h := s.h.(have := true), last := e, gyro := gyroZ, haveFilter := true)
    else if !(dt > 0.0) then s
    else AdaptStep(cfg, IntegrateStep(cfg, SenseStep(cfg, s, e, gyroZ, dt), dt))
  }

  predicate TakesCorrection(cfg: LocConfig, h: Heading, delta: real) {
    h.have && !(Abs(delta) > Deg2Rad(cfg.maxWriteback))
  }

  function CorrectStep(h: Heading, delta: real): Heading {
    h.(offset := WrapPi(h.offset + delta), yaw := WrapPi(h.yaw + delta),
       applyCount := h.applyCount + 1, totalAbsDeg := h.totalAbsDeg + Rad2Deg(Abs(delta)))
  }

  /** The published heading is the uncorrected one plus the offset, up to whole turns. */
  ghost predicate HeadingConsistent(h: Heading) {
    -PI <= h.yaw <= PI && Congruent(h.yaw, h.fused + h.offset)
  }

  lemma {:induction false} InitIsConsistent()
    ensures HeadingConsistent(INIT_HEADING)
  {
    CongruentRefl(0.0);
  }

  lemma {:induction false} MoveKeepsHeading(h: Heading, fused: real, v: real, w: real)
    ensures HeadingConsistent(MoveStep(h, fused, v, w))
  {
    CongruentSym(fused + h.offset, WrapPi(fused + h.offset));
  }

  /** A correction turns the heading and the offset by the same amount. */
  lemma {:induction false} CorrectionKeepsHeading(h: Heading, delta: real)
    requires HeadingConsistent(h)
    ensures HeadingConsistent(CorrectStep(h, delta))
    ensures Congruent(CorrectStep(h, delta).offset, h.offset + delta)
    ensures Abs(CorrectStep(h, delta).offset) <= Abs(h.offset) + Abs(delta)
  {
    hide Congruent, WrapPi;
    var n := CorrectStep(h, delta);
    WrapIsCongruent(h.yaw + delta);
    WrapIsCongruent(h.offset + delta);
    YawFollows(h.yaw, h.fused, h.offset, delta, n.yaw, n.offset);
    CongruentRefl(h.offset + delta);
    WrapIsShortest(h.offset + delta, h.offset + delta);
    CongruentSym(h.offset + delta, n.offset);
  }

  lemma {:induction false} WrapIsCongruent(a: real)
    ensures -PI <= WrapPi(a) <= PI && Congruent(a, WrapPi(a))
  {}

  /** Turning heading and offset by the same amount keeps heading = fused + offset, up to whole turns. */
  lemma {:induction false} YawFollows(yaw: real, fused: real, offset: real, delta: real, yaw': real, offset': real)
    requires Congruent(yaw, fused + offset) && Congruent(yaw + delta, yaw') && Congruent(offset + delta, offset')
    ensures Congruent(yaw', fused + offset')
  {
    hide Congruent;
    CongruentRefl(delta);
    CongruentAdd(yaw, fused + offset, delta, delta);
    CongruentSym(yaw + delta, yaw');
    CongruentTrans(yaw', yaw + delta, fused + offset + delta);
    CongruentRefl(fused);
    CongruentAdd(fused, fused, offset + delta, offset');
    assert fused + (offset + delta) == fused + offset + delta;
    CongruentTrans(yaw', fused + offset + delta, fused + offset');
  }

  class LocalizerObject {
    const cfg: LocConfig
    var h: Heading
    var last: Ticks
    var haveFilter: bool
    var yawEnc: real
    var yawImu: real
    var gyroBias: real
    var gyro: real
    var dl: real
    var dr: real
    var dyawEnc: real
    var stationary: bool
    var rejectedEncoder: nat
    var spikes: nat
    var biasUpdates: nat

    function View(): Loc
      reads this
    {
      Loc(h, last, haveFilter, yawEnc, yawImu, gyroBias, gyro, dl, dr, dyawEnc, stationary,
          rejectedEncoder, spikes, biasUpdates)
    }

    constructor (cfg: LocConfig)
      ensures this.cfg == cfg && View() == INIT_LOC
    {
      this.cfg := cfg;
      h, last, haveFilter := INIT_HEADING, Ticks(0, 0), false;
      yawEnc, yawImu, gyroBias, gyro, dl, dr, dyawEnc := 0.0, 0.0, 0.0, 0.0, 0.0, 0.0, 0.0;
      stationary, rejectedEncoder, spikes, biasUpdates := false, 0, 0, 0;
    }

    /** The encoder and gyro part of update. */
    method Sense(e: Ticks, gyroZ: real, dt: real)
      requires cfg.Valid() && dt > 0.0
      modifies this
      ensures View() == SenseStep(cfg, old(View()), e, gyroZ, dt)
    {
      hide Wheels, Filter;
      var (bad, dlNow, drNow) := Wheels(cfg, View(), e, dt);
      var (spike, gyroNow) := Filter(cfg, View(), gyroZ);
      last := e;
      if bad {
        rejectedEncoder := rejectedEncoder + 1;
      }
      dl, dr := dlNow, drNow;
      if spike {
        spikes := spikes + 1;
      }
      gyro, haveFilter := gyroNow, true;
    }

    method Publish(fused: real, v: real, w: real)
      modifies this`h
      ensures h == MoveStep(old(h), fused, v, w)
    {
      hide WrapPi;
      h := h.(fused := fused);
      h := h.(yaw := WrapPi(h.fused + h.offset));
      h := h.(v := v, w := w);
    }

    /** The heading part. */
    method Integrate(dt: real)
      requires cfg.Valid() && dt > 0.0
      modifies this
      ensures View() == IntegrateStep(cfg, old(View()), dt)
    {
      hide Rate, Turned, Fuse, IsStationary, WrapPi, MoveStep;
      dyawEnc := Rate(dr - dl, cfg.wheelBase);
      yawEnc := WrapPi(yawEnc + dyawEnc);
      yawImu := Turned(yawImu, gyro, gyroBias, dt);
      Publish(Fuse(cfg, yawEnc, yawImu), Rate(0.5 * (dr + dl), dt), Rate(dyawEnc, dt));
      stationary := IsStationary(cfg, h.v, h.w, gyro, gyroBias);
    }

    method Update(e: Ticks, gyroZ: real, dt: real)
      requires cfg.Valid()
      modifies this
      ensures View() == OdometryStep(cfg, old(View()), e, gyroZ, dt)
    {
      hide SenseStep, IntegrateStep, Blend;
      if !h.have {
        last, h, gyro, haveFilter := e, h.(have := true), gyroZ, true;
        return;
      }
      if !(dt > 0.0) {
        return;
      }
      Sense(e, gyroZ, dt);
      Integrate(dt);
      if stationary && cfg.biasAlpha > 0.0 {
        gyroBias := Blend(cfg.biasAlpha, gyroBias, gyro);
        biasUpdates := biasUpdates + 1;
      }
    }

    method ApplyYawCorrectionOnly(delta: real) returns (ok: bool)
      modifies this`h
      ensures ok <==> TakesCorrection(cfg, old(h), delta)
      ensures h == if ok then CorrectStep(old(h), delta) else old(h)
    {
      hide WrapPi, Deg2Rad, Abs;
      if !h.have {
        return false;
      }
      if Abs(delta) > Deg2Rad(cfg.maxWriteback) {
        return false;
      }
      h := h.(offset := WrapPi(h.offset + delta));
      h := h.(yaw := WrapPi(h.yaw + delta));
      h := h.(applyCount := h.applyCount + 1, totalAbsDeg := h.totalAbsDeg + Rad2Deg(Abs(delta)));
      ok := true;
    }
  }
}
