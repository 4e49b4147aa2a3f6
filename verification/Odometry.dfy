/** What dead reckoning makes of a run of encoder and gyro readings (include/robot_slamd/mapping/localizer.hpp). */
module Odometry {
  import opened Angles
  import opened Localizer
  import opened Sequences

  datatype Reading = Reading(ticks: Ticks, gyroZ: real, dt: real)

  /** The localizer after a run of readings. */
  function Track(cfg: LocConfig, s: Loc, rs: seq<Reading>): Loc
    requires cfg.Valid()
  {
    if rs == [] then s else Next(cfg, Track(cfg, s, Init(rs)), Last(rs))
  }

  function Next(cfg: LocConfig, s: Loc, r: Reading): Loc
    requires cfg.Valid()
  {
    OdometryStep(cfg, s, r.ticks, r.gyroZ, r.dt)
  }

  // ----- wheels -----

  /** The way a wheel rolls: its circumference for every whole turn. */
  ghost function Rolled(ticks: int, perRev: int, radius: real): real
    requires perRev > 0
  {
    (2.0 * PI * radius) * (ticks as real) / (perRev as real)
  }

  lemma {:induction false} RolledAdds(a: int, b: int, perRev: int, radius: real)
    requires perRev > 0
    ensures Rolled(a + b, perRev, radius) == Rolled(a, perRev, radius) + Rolled(b, perRev, radius)
    ensures Rolled(perRev, perRev, radius) == 2.0 * PI * radius
  {
    var c, n := 2.0 * PI * radius, perRev as real;
    assert c * (a + b) as real == c * a as real + c * b as real;
    DividedSum(c * a as real, c * b as real, n);
    assert c * n / n == c;
  }

  lemma {:induction false} DividedSum(x: real, y: real, n: real)
    requires n > 0.0
    ensures (x + y) / n == x / n + y / n
  {}

  lemma {:induction false} MetresAreRolled(ticks: int, perRev: int, radius: real)
    requires perRev > 0
    ensures WheelMetres(ticks, perRev, radius) == Rolled(ticks, perRev, radius)
  {
    var t, n := ticks as real, perRev as real;
    var q := t / n;
    assert q * n == t;
    assert (2.0 * PI * radius) * t == (q * 2.0 * PI * radius) * n;
  }

  ghost function Right(cfg: LocConfig, from: Ticks, to: Ticks): real
    requires cfg.Valid()
  {
    Rolled(to.right - from.right, cfg.ticksPerRev, cfg.radiusRight)
  }

  ghost function Left(cfg: LocConfig, from: Ticks, to: Ticks): real
    requires cfg.Valid()
  {
    Rolled(to.left - from.left, cfg.ticksPerRev, cfg.radiusLeft)
  }

  /** The rotation between two encoder readings: the right wheel's lead over the left, as an angle about the
      middle of the axle. */
  ghost function TurnOf(cfg: LocConfig, from: Ticks, to: Ticks): real
    requires cfg.Valid()
  {
    (Right(cfg, from, to) - Left(cfg, from, to)) / cfg.wheelBase
  }

  /** How far a wheel can roll in this time. */
  ghost function Reach(speed: real, dt: real): real { speed * dt }

  /** A wheel seems to have moved faster than it can. */
  ghost predicate Jumps(cfg: LocConfig, from: Ticks, r: Reading)
    requires cfg.Valid()
  {
    var limit := Reach(Max(0.01, cfg.maxWheelSpeed), r.dt);
    Abs(Left(cfg, from, r.ticks)) > limit || Abs(Right(cfg, from, r.ticks)) > limit
  }

  lemma {:induction false} FasterIff(way: real, dt: real, speed: real)
    requires dt > 0.0
    ensures Abs(way / dt) > speed <==> Abs(way) > Reach(speed, dt)
  {
    var q := way / dt;
    assert q * dt == way;
    assert Abs(q) * dt == Abs(way) by {
      if q >= 0.0 { assert q * dt >= 0.0; } else { assert (-q) * dt >= 0.0; }
    }
    if Abs(q) > speed { assert (Abs(q) - speed) * dt > 0.0; } else { assert (speed - Abs(q)) * dt >= 0.0; }
  }

  lemma {:induction false} WheelsMean(cfg: LocConfig, s: Loc, r: Reading)
    requires cfg.Valid() && r.dt > 0.0
    ensures Wheels(cfg, s, r.ticks, r.dt)
            == if Jumps(cfg, s.last, r) then (true, 0.0, 0.0)
               else (false, Left(cfg, s.last, r.ticks), Right(cfg, s.last, r.ticks))
  {
    MetresAreRolled(r.ticks.left - s.last.left, cfg.ticksPerRev, cfg.radiusLeft);
    MetresAreRolled(r.ticks.right - s.last.right, cfg.ticksPerRev, cfg.radiusRight);
    FasterIff(Left(cfg, s.last, r.ticks), r.dt, Max(0.01, cfg.maxWheelSpeed));
    FasterIff(Right(cfg, s.last, r.ticks), r.dt, Max(0.01, cfg.maxWheelSpeed));
    hide WheelMetres, Rolled, Abs, Max, Reach, Left, Right;
    assert WheelMetres(r.ticks.left - s.last.left, cfg.ticksPerRev, cfg.radiusLeft) == Left(cfg, s.last, r.ticks);
    assert WheelMetres(r.ticks.right - s.last.right, cfg.ticksPerRev, cfg.radiusRight) == Right(cfg, s.last, r.ticks);
  }

  /** What one reading of a started localizer adds to the encoder heading: a jump adds no rotation. */
  ghost function TurnOfReading(cfg: LocConfig, from: Ticks, r: Reading): real
    requires cfg.Valid()
  {
    if r.dt <= 0.0 || Jumps(cfg, from, r) then 0.0 else TurnOf(cfg, from, r.ticks)
  }

  /** And how far it moves the robot. */
  ghost function WayOfReading(cfg: LocConfig, from: Ticks, r: Reading): real
    requires cfg.Valid()
  {
    if Jumps(cfg, from, r) then 0.0 else (Left(cfg, from, r.ticks) + Right(cfg, from, r.ticks)) / 2.0
  }

  lemma {:induction false} RateMeans(x: real, dt: real)
    requires dt > 0.0
    ensures Rate(x, dt) * dt == x && (x == 0.0 ==> Rate(x, dt) == 0.0)
  {}

  lemma {:induction false} NextByWheels(cfg: LocConfig, s: Loc, r: Reading, bad: bool, dl: real, dr: real)
    requires cfg.Valid() && s.h.have && r.dt > 0.0 && Wheels(cfg, s, r.ticks, r.dt) == (bad, dl, dr)
    ensures var n, turn := Next(cfg, s, r), Rate(dr - dl, cfg.wheelBase);
            && n.h.have && n.last == r.ticks && n.rejectedEncoder == s.rejectedEncoder + (if bad then 1 else 0)
            && n.yawEnc == WrapPi(s.yawEnc + turn)
            && n.h.v == Rate(0.5 * (dr + dl), r.dt) && n.h.w == Rate(turn, r.dt)
  {
    hide Wheels, Filter, Fuse, Turned, WrapPi, IsStationary, Blend, Rate;
  }

  lemma {:induction false} ReadingMeans(cfg: LocConfig, s: Loc, r: Reading, bad: bool, dl: real, dr: real)
    requires cfg.Valid() && r.dt > 0.0 && Wheels(cfg, s, r.ticks, r.dt) == (bad, dl, dr)
    ensures bad == Jumps(cfg, s.last, r) && Rate(dr - dl, cfg.wheelBase) == TurnOfReading(cfg, s.last, r)
    ensures 0.5 * (dr + dl) == WayOfReading(cfg, s.last, r)
  {
    WheelsMean(cfg, s, r);
    TurnMeans(cfg, dr - dl);
    hide Wheels, Jumps, Left, Right, Rate;
  }

  /** One reading of a started localizer: no time, no change; otherwise the wheels turn and move the robot. */
  lemma {:induction false} WheelStep(cfg: LocConfig, s: Loc, r: Reading)
    requires cfg.Valid() && s.h.have
    ensures var n := Next(cfg, s, r);
            && n.h.have && (r.dt <= 0.0 ==> n == s) && n.last == (if r.dt > 0.0 then r.ticks else s.last)
            && Congruent(s.yawEnc + TurnOfReading(cfg, s.last, r), n.yawEnc)
            && n.rejectedEncoder == s.rejectedEncoder + (if r.dt > 0.0 && Jumps(cfg, s.last, r) then 1 else 0)
            && (r.dt > 0.0 ==> n.h.v * r.dt == WayOfReading(cfg, s.last, r)
                               && n.h.w * r.dt == TurnOfReading(cfg, s.last, r))
  {
    hide SenseStep, IntegrateStep, AdaptStep, Wheels, Jumps, Left, Right, TurnOf, WayOfReading, Congruent, WrapPi, Rate;
    if r.dt <= 0.0 {
      CongruentRefl(s.yawEnc);
    } else {
      hide Next, TurnOfReading;
      var (bad, dl, dr) := Wheels(cfg, s, r.ticks, r.dt);
      var turn := Rate(dr - dl, cfg.wheelBase);
      NextByWheels(cfg, s, r, bad, dl, dr);
      ReadingMeans(cfg, s, r, bad, dl, dr);
      RateMeans(0.5 * (dr + dl), r.dt);
      RateMeans(turn, r.dt);
      WrapIsCongruent(s.yawEnc + turn);
    }
  }

  lemma {:induction false} TurnMeans(cfg: LocConfig, lead: real)
    requires cfg.Valid()
    ensures Rate(lead, cfg.wheelBase) == lead / cfg.wheelBase && (lead == 0.0 ==> lead / cfg.wheelBase == 0.0)
  {}

  // ----- the encoder heading over a run -----

  /** Rotation by the wheels over a run of readings, jumps left out. */
  ghost function TurnsOf(cfg: LocConfig, s: Loc, rs: seq<Reading>): real
    requires cfg.Valid()
  {
    if rs == [] then 0.0 else TurnsOf(cfg, s, Init(rs)) + TurnOfReading(cfg, Track(cfg, s, Init(rs)).last, Last(rs))
  }

  /** After any run of readings the encoder heading has turned by the sum of what the wheels turned between
      readings, up to whole turns. */
  lemma {:induction false} EncoderHeadingIsSum(cfg: LocConfig, s: Loc, rs: seq<Reading>)
    requires cfg.Valid() && s.h.have
    ensures Track(cfg, s, rs).h.have && Congruent(s.yawEnc + TurnsOf(cfg, s, rs), Track(cfg, s, rs).yawEnc)
    ensures Track(cfg, s, rs).rejectedEncoder >= s.rejectedEncoder
  {
    hide Next, TurnOfReading, Congruent, Jumps;
    CongruentRefl(s.yawEnc);
    if rs != [] {
      var before, r := Track(cfg, s, Init(rs)), Last(rs);
      EncoderHeadingIsSum(cfg, s, Init(rs));
      WheelStep(cfg, before, r);
      Carry(s.yawEnc + TurnsOf(cfg, s, Init(rs)), before.yawEnc, TurnOfReading(cfg, before.last, r),
            Next(cfg, before, r).yawEnc);
    }
  }

  lemma {:induction false} Carry(sum: real, yaw: real, turn: real, next: real)
    requires Congruent(sum, yaw) && Congruent(yaw + turn, next)
    ensures Congruent(sum + turn, next)
  {
    hide Congruent;
    CongruentRefl(turn);
    CongruentAdd(sum, yaw, turn, turn);
    CongruentTrans(sum + turn, yaw + turn, next);
  }

  /** The ticks the localizer compares with next: those of the last reading that spans time. */
  ghost function LatestTicks(from: Ticks, rs: seq<Reading>): Ticks {
    if rs == [] then from else if Last(rs).dt > 0.0 then Last(rs).ticks else LatestTicks(from, Init(rs))
  }

  lemma {:induction false} TracksTicks(cfg: LocConfig, s: Loc, rs: seq<Reading>)
    requires cfg.Valid() && s.h.have
    ensures Track(cfg, s, rs).last == LatestTicks(s.last, rs)
  {
    hide Next;
    if rs != [] {
      TracksTicks(cfg, s, Init(rs));
      EncoderHeadingIsSum(cfg, s, Init(rs));
      WheelStep(cfg, Track(cfg, s, Init(rs)), Last(rs));
    }
  }

  lemma {:induction false} TurnAdds(cfg: LocConfig, a: Ticks, b: Ticks, c: Ticks)
    requires cfg.Valid()
    ensures TurnOf(cfg, a, b) + TurnOf(cfg, b, c) == TurnOf(cfg, a, c) && TurnOf(cfg, a, a) == 0.0
  {
    RolledAdds(b.right - a.right, c.right - b.right, cfg.ticksPerRev, cfg.radiusRight);
    RolledAdds(b.left - a.left, c.left - b.left, cfg.ticksPerRev, cfg.radiusLeft);
    RolledAdds(0, 0, cfg.ticksPerRev, cfg.radiusRight);
    RolledAdds(0, 0, cfg.ticksPerRev, cfg.radiusLeft);
    hide Rolled;
    assert b.right - a.right + (c.right - b.right) == c.right - a.right;
    assert b.left - a.left + (c.left - b.left) == c.left - a.left;
    DividedSum(Right(cfg, a, b) - Left(cfg, a, b), Right(cfg, b, c) - Left(cfg, b, c), cfg.wheelBase);
    assert Right(cfg, a, a) - Left(cfg, a, a) == 0.0;
  }

  lemma {:induction false} TurnsTelescope(cfg: LocConfig, s: Loc, rs: seq<Reading>)
    requires cfg.Valid() && s.h.have && Track(cfg, s, rs).rejectedEncoder == s.rejectedEncoder
    ensures TurnsOf(cfg, s, rs) == TurnOf(cfg, s.last, Track(cfg, s, rs).last)
  {
    hide Next, TurnOf, Jumps, Congruent;
    TurnAdds(cfg, s.last, s.last, s.last);
    if rs != [] {
      var before, r := Track(cfg, s, Init(rs)), Last(rs);
      EncoderHeadingIsSum(cfg, s, Init(rs));
      WheelStep(cfg, before, r);
      TurnsTelescope(cfg, s, Init(rs));
      TurnAdds(cfg, s.last, before.last, r.ticks);
      TurnAdds(cfg, s.last, before.last, before.last);
    }
  }

  /** Over every run without an encoder jump, only the first and the last ticks matter: the encoder heading has
      turned by the right wheel's lead over the left, divided by the wheel base. */
  lemma {:induction false} EncoderHeading(cfg: LocConfig, s: Loc, rs: seq<Reading>)
    requires cfg.Valid() && s.h.have && Track(cfg, s, rs).rejectedEncoder == s.rejectedEncoder
    ensures var to := LatestTicks(s.last, rs);
            Congruent(s.yawEnc + (Right(cfg, s.last, to) - Left(cfg, s.last, to)) / cfg.wheelBase,
                      Track(cfg, s, rs).yawEnc)
  {
    hide Track, TurnsOf, LatestTicks, Congruent, Right, Left;
    EncoderHeadingIsSum(cfg, s, rs);
    TurnsTelescope(cfg, s, rs);
    TracksTicks(cfg, s, rs);
  }

  // ----- the gyro -----

  ghost predicate Spikes(cfg: LocConfig, s: Loc, r: Reading) {
    r.gyroZ > cfg.spike || r.gyroZ < -cfg.spike || r.gyroZ > s.gyro + cfg.spike || r.gyroZ < s.gyro - cfg.spike
  }

  ghost predicate IsBetween(x: real, a: real, b: real) { a <= x <= b || b <= x <= a }

  ghost predicate Rests(cfg: LocConfig, s: Loc, n: Loc) {
    && -cfg.stationaryLinear <= n.h.v <= cfg.stationaryLinear
    && -cfg.stationaryAngular <= n.h.w <= cfg.stationaryAngular
    && (-cfg.staticGyro <= n.gyro - s.gyroBias <= cfg.staticGyro
        || -cfg.stationaryAngular <= n.gyro - s.gyroBias <= cfg.stationaryAngular)
  }

  /** A share of the way from one value to another. */
  ghost function Towards(from: real, to: real, share: real): real { from + Times(share, to - from) }

  ghost function Times(a: real, b: real): real { a * b }

  lemma {:induction false} ShareOf(share: real, way: real)
    requires 0.0 <= share <= 1.0 && way >= 0.0
    ensures 0.0 <= Times(share, way) <= way && Times(share, -way) == -Times(share, way)
  {
    var rest := 1.0 - share;
    assert share * way >= 0.0;
    assert rest * way >= 0.0;
    assert rest * way == way - share * way;
  }

  lemma {:induction false} ShareIsBetween(from: real, to: real, share: real)
    requires 0.0 <= share <= 1.0
    ensures IsBetween(Towards(from, to, share), from, to)
  {
    ShareOf(share, Abs(to - from));
    assert from - to == -(to - from);
    hide Times;
  }

  lemma {:induction false} BlendMeans(alpha: real, before: real, latest: real)
    ensures Blend(alpha, before, latest) == Towards(before, latest, alpha)
  {
    assert alpha * latest - alpha * before == alpha * (latest - before);
  }

  lemma {:induction false} NextByGyro(cfg: LocConfig, s: Loc, r: Reading, spike: bool, gyro: real)
    requires cfg.Valid() && s.h.have && r.dt > 0.0 && Filter(cfg, s, r.gyroZ) == (spike, gyro)
    ensures var n := Next(cfg, s, r);
            && n.haveFilter && n.gyro == gyro && n.spikes == s.spikes + (if spike then 1 else 0)
            && n.yawImu == Turned(s.yawImu, gyro, s.gyroBias, r.dt)
            && n.stationary == IsStationary(cfg, n.h.v, n.h.w, gyro, s.gyroBias)
            && n.gyroBias == (if n.stationary && cfg.biasAlpha > 0.0 then Blend(cfg.biasAlpha, s.gyroBias, gyro)
                              else s.gyroBias)
            && n.h.fused == Fuse(cfg, n.yawEnc, n.yawImu)
  {
    hide Wheels, Filter, Fuse, Turned, WrapPi, IsStationary, Blend, Rate;
  }

  /** One reading that spans time, of a started localizer with a filter: a spike leaves the filtered rate alone, any
      other reading draws it a fixed share of the way, never past the reading; the gyro heading turns by the filtered
      rate less the bias; and a robot at rest draws the bias a fixed share towards the filtered rate. */
  lemma {:induction false} GyroStep(cfg: LocConfig, s: Loc, r: Reading)
    requires cfg.Valid() && s.h.have && s.haveFilter && r.dt > 0.0
    ensures var n := Next(cfg, s, r);
            && n.haveFilter && n.spikes == s.spikes + (if Spikes(cfg, s, r) then 1 else 0)
            && n.gyro == (if Spikes(cfg, s, r) then s.gyro else Towards(s.gyro, r.gyroZ, cfg.lpfAlpha))
            && IsBetween(n.gyro, s.gyro, r.gyroZ)
            && Congruent(s.yawImu + Times(n.gyro - s.gyroBias, r.dt), n.yawImu)
            && (n.stationary <==> Rests(cfg, s, n))
            && n.gyroBias == (if Rests(cfg, s, n) then Towards(s.gyroBias, n.gyro, cfg.biasAlpha) else s.gyroBias)
            && IsBetween(n.gyroBias, s.gyroBias, n.gyro)
  {
    var (spike, gyro) := Filter(cfg, s, r.gyroZ);
    FilterMeans(cfg, s, r);
    BlendMeans(cfg.lpfAlpha, s.gyro, r.gyroZ);
    ShareIsBetween(s.gyro, r.gyroZ, cfg.lpfAlpha);
    TurnedMeans(s.yawImu, gyro, s.gyroBias, r.dt);
    BlendMeans(cfg.biasAlpha, s.gyroBias, gyro);
    ShareIsBetween(s.gyroBias, gyro, cfg.biasAlpha);
    NoShare(s.gyroBias, gyro);
    NextByGyro(cfg, s, r, spike, gyro);
    RestsIff(cfg, s, Next(cfg, s, r));
    hide Filter, Turned, Congruent, IsStationary, Rests, Blend, Towards, Times, Spikes, Next;
  }

  lemma {:induction false} NoShare(from: real, to: real)
    ensures Towards(from, to, 0.0) == from
  {}

  lemma {:induction false} TurnedMeans(yaw: real, gyro: real, bias: real, dt: real)
    ensures Congruent(yaw + Times(gyro - bias, dt), Turned(yaw, gyro, bias, dt))
  {}

  lemma {:induction false} FilterMeans(cfg: LocConfig, s: Loc, r: Reading)
    requires s.haveFilter
    ensures Filter(cfg, s, r.gyroZ)
            == if Spikes(cfg, s, r) then (true, s.gyro) else (false, Blend(cfg.lpfAlpha, s.gyro, r.gyroZ))
  {
    hide Blend;
  }

  lemma {:induction false} RestsIff(cfg: LocConfig, s: Loc, n: Loc)
    ensures IsStationary(cfg, n.h.v, n.h.w, n.gyro, s.gyroBias) <==> Rests(cfg, s, n)
  {}

  /** Rotation by the gyro over a run: at each reading that spans time, the filtered rate less the bias so far. */
  ghost function SwingsOf(cfg: LocConfig, s: Loc, rs: seq<Reading>): real
    requires cfg.Valid()
  {
    if rs == [] then 0.0
    else
      var rate := Track(cfg, s, rs).gyro - Track(cfg, s, Init(rs)).gyroBias;
      SwingsOf(cfg, s, Init(rs)) + (if Last(rs).dt > 0.0 then Times(rate, Last(rs).dt) else 0.0)
  }

  /** After any run of readings the gyro heading has turned by the sum of these, up to whole turns. */
  lemma {:induction false} GyroHeading(cfg: LocConfig, s: Loc, rs: seq<Reading>)
    requires cfg.Valid() && s.h.have && s.haveFilter
    ensures Track(cfg, s, rs).haveFilter && Congruent(s.yawImu + SwingsOf(cfg, s, rs), Track(cfg, s, rs).yawImu)
  {
    hide Next, Times, Congruent, Spikes, Rests, Towards;
    CongruentRefl(s.yawImu);
    if rs != [] {
      var before, r := Track(cfg, s, Init(rs)), Last(rs);
      GyroHeading(cfg, s, Init(rs));
      EncoderHeadingIsSum(cfg, s, Init(rs));
      WheelStep(cfg, before, r);
      if r.dt > 0.0 {
        var n := Next(cfg, before, r);
        GyroStep(cfg, before, r);
        Carry(s.yawImu + SwingsOf(cfg, s, Init(rs)), before.yawImu, Times(n.gyro - before.gyroBias, r.dt), n.yawImu);
      }
    }
  }

  // ----- the fused heading -----

  /** The angle between two headings. */
  ghost function Between(a: real, b: real): real { Abs(WrapPi(a - b)) }

  lemma {:induction false} AngleOf(a: real, x: real)
    requires Congruent(a, x) && -PI <= x <= PI
    ensures Abs(WrapPi(a)) == Abs(x)
  {
    WrapUnique(a, x);
    hide WrapPi, Congruent;
  }

  lemma {:induction false} SameLess(a: real, b: real, c: real)
    requires Congruent(a, b)
    ensures Congruent(a - c, b - c)
  {
    CongruentRefl(-c);
    CongruentAdd(a, b, -c, -c);
  }

  lemma {:induction false} PartOfTurn(part: real, d: real)
    requires 0.0 <= part <= 1.0 && -PI <= d <= PI
    ensures -PI <= Times(part, d) <= PI && Abs(Times(part, d)) == Times(part, Abs(d))
    ensures Times(1.0, d) == d && Times(0.0, d) == 0.0 && d - Times(1.0 - part, d) == Times(part, d)
  {
    ShareOf(part, Abs(d));
  }

  /** The fused heading lies on the shorter arc from the encoder heading to the gyro heading and divides it by the
      configured share. At its ends it is the encoder heading alone or the gyro heading alone, up to whole turns. */
  lemma {:induction false} FusedOnArc(cfg: LocConfig, enc: real, imu: real)
    requires cfg.Valid()
    ensures var f, whole := Fuse(cfg, enc, imu), Between(imu, enc);
            && -PI <= f <= PI
            && Between(f, enc) == Times(1.0 - cfg.fusionAlpha, whole)
            && Between(imu, f) == Times(cfg.fusionAlpha, whole)
            && (cfg.fusionAlpha == 1.0 ==> Congruent(enc, f)) && (cfg.fusionAlpha == 0.0 ==> Congruent(imu, f))
  {
    var d, f, part := WrapPi(imu - enc), Fuse(cfg, enc, imu), 1.0 - cfg.fusionAlpha;
    var x, y := Times(part, d), Times(cfg.fusionAlpha, d);
    PartOfTurn(part, d);
    PartOfTurn(cfg.fusionAlpha, d);
    FuseMeans(cfg, enc, imu);
    WrapIsCongruent(imu - enc);
    hide Fuse, WrapPi, Congruent, Times, Abs;
    NearEnd(enc, f, x);
    FarEnd(enc, imu, f, x, d, y);
    AngleOf(imu - f, y);
    assert Between(imu, enc) == Abs(d);
    hide Between;
    if cfg.fusionAlpha == 0.0 {
      EndIsImu(imu, f, y);
    }
  }

  lemma {:induction false} NearEnd(enc: real, f: real, x: real)
    requires Congruent(enc + x, f) && -PI <= x <= PI
    ensures Between(f, enc) == Abs(x)
  {
    hide Congruent, WrapPi;
    SameLess(enc + x, f, enc);
    assert enc + x - enc == x;
    CongruentSym(x, f - enc);
    AngleOf(f - enc, x);
  }

  lemma {:induction false} ShareIsTimes(cfg: LocConfig, enc: real, imu: real)
    ensures GyroShare(cfg, enc, imu) == Times(1.0 - cfg.fusionAlpha, WrapPi(imu - enc))
  {
    hide WrapPi;
  }

  lemma {:induction false} FuseMeans(cfg: LocConfig, enc: real, imu: real)
    ensures var x, f := Times(1.0 - cfg.fusionAlpha, WrapPi(imu - enc)), Fuse(cfg, enc, imu);
            Congruent(enc + x, f) && Congruent(f, enc + x) && -PI <= f <= PI
  {
    hide WrapPi, Congruent, Times, GyroShare;
    ShareIsTimes(cfg, enc, imu);
    var sum := enc + GyroShare(cfg, enc, imu);
    WrapIsCongruent(sum);
    CongruentSym(sum, WrapPi(sum));
  }

  lemma {:induction false} FarEnd(enc: real, imu: real, f: real, x: real, d: real, y: real)
    requires Congruent(enc + x, f) && Congruent(imu - enc, d) && y == d - x
    ensures Congruent(imu - f, y)
  {
    hide Congruent;
    CongruentSym(enc + x, f);
    SameLess(imu - enc, d, x);
    Negated(enc + x, f);
    CongruentRefl(imu);
    CongruentAdd(imu, imu, -(enc + x), -f);
    assert imu + -(enc + x) == imu - enc - x && imu + -f == imu - f;
    CongruentSym(imu - enc - x, imu - f);
    CongruentTrans(imu - f, imu - enc - x, d - x);
  }

  lemma {:induction false} Negated(a: real, b: real)
    requires Congruent(a, b)
    ensures Congruent(-a, -b)
  {
    var k :| a - b == Turns(k);
    assert -a - -b == Turns(-k);
  }

  lemma {:induction false} EndIsImu(imu: real, f: real, y: real)
    requires Congruent(imu - f, y) && y == 0.0
    ensures Congruent(imu, f)
  {
    SameLess(imu - f, y, -f);
    assert imu - f - -f == imu && y - -f == f;
  }

  // ----- from the start -----

  /** The first reading only sets the marks to measure from. */
  lemma {:induction false} FirstReading(cfg: LocConfig, r: Reading)
    requires cfg.Valid()
    ensures var n := Next(cfg, INIT_LOC, r);
            && n.h.have && n.haveFilter && n.last == r.ticks && n.gyro == r.gyroZ
            && n.yawEnc == n.yawImu == n.gyroBias == n.h.fused == 0.0 && n.rejectedEncoder == 0
  {}

  lemma {:induction false} TrackSplits(cfg: LocConfig, s: Loc, rs: seq<Reading>)
    requires cfg.Valid() && rs != []
    ensures Track(cfg, s, rs) == Track(cfg, Next(cfg, s, rs[0]), rs[1..])
  {
    hide Next;
    if |rs| > 1 {
      TrackSplits(cfg, s, Init(rs));
      assert Init(rs)[1..] == Init(rs[1..]) && Last(rs[1..]) == Last(rs) && Init(rs)[0] == rs[0];
    } else {
      assert Init(rs) == [] && rs[1..] == [];
      assert Track(cfg, s, []) == s;
    }
  }

  lemma {:induction false} FuseStays(cfg: LocConfig, s: Loc, r: Reading)
    requires cfg.Valid() && s.h.have && s.haveFilter && s.h.fused == Fuse(cfg, s.yawEnc, s.yawImu)
    ensures var n := Next(cfg, s, r); n.h.fused == Fuse(cfg, n.yawEnc, n.yawImu)
  {
    WheelStep(cfg, s, r);
    hide Fuse, Next, Congruent;
    if r.dt > 0.0 {
      var (spike, gyro) := Filter(cfg, s, r.gyroZ);
      NextByGyro(cfg, s, r, spike, gyro);
    }
  }

  lemma {:induction false} FusesAlways(cfg: LocConfig, s: Loc, rs: seq<Reading>)
    requires cfg.Valid() && s.h.have && s.haveFilter && s.h.fused == Fuse(cfg, s.yawEnc, s.yawImu)
    ensures var n := Track(cfg, s, rs); n.h.fused == Fuse(cfg, n.yawEnc, n.yawImu)
  {
    hide Fuse, Next, Congruent;
    if rs != [] {
      FusesAlways(cfg, s, Init(rs));
      GyroHeading(cfg, s, Init(rs));
      EncoderHeadingIsSum(cfg, s, Init(rs));
      FuseStays(cfg, Track(cfg, s, Init(rs)), Last(rs));
    }
  }

  lemma {:induction false} FuseOfNothing(cfg: LocConfig)
    ensures Fuse(cfg, 0.0, 0.0) == 0.0
  {
    assert WrapPi(0.0) == 0.0;
  }

  /** Dead reckoning from the first reading on: the encoder heading is the right wheel's lead over the left since the
      first reading, divided by the wheel base (if no reading was taken for a jump); the gyro heading is the sum of
      the filtered rates less the bias; and the uncorrected heading lies between them on the shorter arc. */
  lemma {:induction false} DeadReckoning(cfg: LocConfig, rs: seq<Reading>)
    requires cfg.Valid() && rs != []
    ensures var n, first := Track(cfg, INIT_LOC, rs), Next(cfg, INIT_LOC, rs[0]);
            var from, to, whole := rs[0].ticks, LatestTicks(rs[0].ticks, rs[1..]), Between(n.yawImu, n.yawEnc);
            && (n.rejectedEncoder == 0 ==>
                  Congruent((Right(cfg, from, to) - Left(cfg, from, to)) / cfg.wheelBase, n.yawEnc))
            && Congruent(TurnsOf(cfg, first, rs[1..]), n.yawEnc) && Congruent(SwingsOf(cfg, first, rs[1..]), n.yawImu)
            && -PI <= n.h.fused <= PI
            && Between(n.h.fused, n.yawEnc) == Times(1.0 - cfg.fusionAlpha, whole)
            && Between(n.yawImu, n.h.fused) == Times(cfg.fusionAlpha, whole)
            && (cfg.fusionAlpha == 1.0 ==> Congruent(n.yawEnc, n.h.fused))
            && (cfg.fusionAlpha == 0.0 ==> Congruent(n.yawImu, n.h.fused))
  {
    hide Track, Next, Fuse, TurnsOf, SwingsOf, LatestTicks, Congruent, Right, Left, Between, Times;
    var first := Next(cfg, INIT_LOC, rs[0]);
    FirstReading(cfg, rs[0]);
    TrackSplits(cfg, INIT_LOC, rs);
    EncoderHeadingIsSum(cfg, first, rs[1..]);
    if Track(cfg, INIT_LOC, rs).rejectedEncoder == 0 {
      EncoderHeading(cfg, first, rs[1..]);
    }
    GyroHeading(cfg, first, rs[1..]);
    FuseOfNothing(cfg);
    FusesAlways(cfg, first, rs[1..]);
    FusedOnArc(cfg, Track(cfg, INIT_LOC, rs).yawEnc, Track(cfg, INIT_LOC, rs).yawImu);
  }
}
