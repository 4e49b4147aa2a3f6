/** The write-back chain fed by encoders and gyro: its runs are runs of the chain, and the corrected heading
    stays near that of a localizer that sees the same readings and no corrections. */
module YawSensing {
  import opened Angles
  import opened Sequences
  import opened Localizer
  import opened Odometry
  import opened YawChain
  import opened YawTheorems

  function FullRun(cfg: Configs, inps: seq<Input>): Full
    requires cfg.Valid()
  {
    if inps == [] then InitFull(cfg) else FullStep(cfg, FullRun(cfg, Init(inps)), Last(inps))
  }

  /** The events a run of inputs amounts to. */
  function EventsOfRun(cfg: Configs, inps: seq<Input>): seq<Event>
    requires cfg.Valid()
  {
    if inps == [] then [] else EventsOfRun(cfg, Init(inps)) + EventsOf(cfg, FullRun(cfg, Init(inps)).loc, Last(inps))
  }

  /** Every run of readings and summaries is a run of the chain, so all that is proved of those holds of it. */
  lemma {:induction false} FullRunIsRun(cfg: Configs, inps: seq<Input>)
    requires cfg.Valid()
    ensures var f := FullRun(cfg, inps); f.chain == Run(cfg, EventsOfRun(cfg, inps)) && f.chain.h == f.loc.h
  {
    hide FullStep, EventsOf, Step;
    if inps != [] {
      var f, evs := FullRun(cfg, Init(inps)), EventsOfRun(cfg, Init(inps));
      var es := EventsOf(cfg, f.loc, Last(inps));
      FullRunIsRun(cfg, Init(inps));
      FullStepIsEvents(cfg, f, Last(inps));
      if es == [] {
        assert evs + es == evs;
      } else {
        assert es == [es[0]];
        RunSnoc(cfg, evs, es[0]);
      }
    }
  }

  lemma {:induction false} RunSnoc(cfg: Configs, evs: seq<Event>, e: Event)
    requires cfg.Valid()
    ensures Run(cfg, evs + [e]) == Step(cfg, Run(cfg, evs), e)
  {
    hide Step;
    assert (evs + [e])[..|evs|] == evs;
  }

  // ----- pure odometry -----

  /** The localizer after the same readings, with no summary ever presented. */
  function PureRun(cfg: Configs, inps: seq<Input>): Loc
    requires cfg.Valid()
  {
    if inps == [] then INIT_LOC
    else
      var before := PureRun(cfg, Init(inps));
      match Last(inps)
      case Sensors(ticks, gyroZ, dt) => OdometryStep(cfg.loc, before, ticks, gyroZ, dt)
      case Summary(_, _, _) => before
  }

  /** All but what corrections touch. */
  function Uncorrected(s: Loc): Loc { s.(h := s.h.(yaw := 0.0, offset := 0.0, applyCount := 0, totalAbsDeg := 0.0)) }

  lemma {:induction false} SenseIgnoresCorrections(cfg: LocConfig, a: Loc, b: Loc, e: Ticks, gyroZ: real, dt: real)
    requires cfg.Valid() && dt > 0.0 && Uncorrected(a) == Uncorrected(b)
    ensures Uncorrected(SenseStep(cfg, a, e, gyroZ, dt)) == Uncorrected(SenseStep(cfg, b, e, gyroZ, dt))
    ensures SenseStep(cfg, a, e, gyroZ, dt).h == a.h
  {
    hide WheelMetres, Blend, Max, Abs;
  }

  lemma {:induction false} IntegrateIgnoresCorrections(cfg: LocConfig, a: Loc, b: Loc, dt: real)
    requires cfg.Valid() && dt > 0.0 && Uncorrected(a) == Uncorrected(b)
    ensures Uncorrected(IntegrateStep(cfg, a, dt)) == Uncorrected(IntegrateStep(cfg, b, dt))
    ensures IntegrateStep(cfg, a, dt).h.offset == a.h.offset
  {
    hide Fuse, Turned, Rate, IsStationary, WrapPi;
  }

  lemma {:induction false} AdaptIgnoresCorrections(cfg: LocConfig, a: Loc, b: Loc)
    requires Uncorrected(a) == Uncorrected(b)
    ensures Uncorrected(AdaptStep(cfg, a)) == Uncorrected(AdaptStep(cfg, b)) && AdaptStep(cfg, a).h == a.h
  {
    hide Blend;
  }

  /** Odometry neither reads nor changes what corrections leave behind. */
  lemma {:induction false} OdometryIgnoresCorrections(cfg: LocConfig, a: Loc, b: Loc, e: Ticks, gyroZ: real, dt: real)
    requires cfg.Valid() && Uncorrected(a) == Uncorrected(b)
    ensures Uncorrected(OdometryStep(cfg, a, e, gyroZ, dt)) == Uncorrected(OdometryStep(cfg, b, e, gyroZ, dt))
    ensures OdometryStep(cfg, a, e, gyroZ, dt).h.offset == a.h.offset
  {
    hide SenseStep, IntegrateStep, AdaptStep;
    if a.h.have && dt > 0.0 {
      var a1, b1 := SenseStep(cfg, a, e, gyroZ, dt), SenseStep(cfg, b, e, gyroZ, dt);
      SenseIgnoresCorrections(cfg, a, b, e, gyroZ, dt);
      IntegrateIgnoresCorrections(cfg, a1, b1, dt);
      AdaptIgnoresCorrections(cfg, IntegrateStep(cfg, a1, dt), IntegrateStep(cfg, b1, dt));
    }
  }

  lemma {:induction false} UncorrectedKeepsFused(a: Loc, b: Loc)
    requires Uncorrected(a) == Uncorrected(b)
    ensures a.h.fused == b.h.fused
  {
    assert Uncorrected(a).h.fused == a.h.fused && Uncorrected(b).h.fused == b.h.fused;
  }

  lemma {:induction false} CorrectionsIgnoreOdometry(cfg: Configs, s: Chain, e: Event)
    requires cfg.Valid() && Inv(cfg, s) && e.Present?
    ensures var h := Step(cfg, s, e).h;
            h.have == s.h.have && h.fused == s.h.fused && h.v == s.h.v && h.w == s.h.w
  {
    StepHasEffect(cfg, s, e);
    hide Step, GateAfter, Inv;
  }

  /** Corrections change the heading and nothing else the localizer works with. */
  lemma {:induction false} SameOdometry(cfg: Configs, inps: seq<Input>)
    requires cfg.Valid()
    ensures Uncorrected(FullRun(cfg, inps).loc) == Uncorrected(PureRun(cfg, inps)) && PureRun(cfg, inps).h.offset == 0.0
  {
    hide OdometryStep, Step, Inv, Run;
    if inps != [] {
      var before, last := Init(inps), Last(inps);
      var f := FullRun(cfg, before);
      SameOdometry(cfg, before);
      if last.Sensors? {
        OdometryIgnoresCorrections(cfg.loc, f.loc, PureRun(cfg, before), last.ticks, last.gyroZ, last.dt);
        OdometryIgnoresCorrections(cfg.loc, PureRun(cfg, before), PureRun(cfg, before), last.ticks, last.gyroZ,
                                   last.dt);
      } else {
        FullRunIsRun(cfg, before);
        RunHasInv(cfg, EventsOfRun(cfg, before));
        CorrectionsIgnoreOdometry(cfg, f.chain, Present(last.now, last.m, last.env));
      }
    }
  }

  /** After any run of readings and summaries the published heading lies within the configured session total of
      the heading that the same readings give without any correction. */
  lemma {:induction false} HeadingStaysNearPureOdometry(cfg: Configs, inps: seq<Input>)
    requires cfg.Valid()
    ensures Abs(WrapPi(FullRun(cfg, inps).loc.h.yaw - PureRun(cfg, inps).h.fused)) <= Deg2Rad(cfg.yaw.maxTotal)
    ensures -PI <= FullRun(cfg, inps).loc.h.yaw <= PI
  {
    hide *;
    FullRunIsRun(cfg, inps);
    SameOdometry(cfg, inps);
    UncorrectedKeepsFused(FullRun(cfg, inps).loc, PureRun(cfg, inps));
    HeadingStaysNearOdometry(cfg, EventsOfRun(cfg, inps));
  }

  // ----- dead reckoning in the chain -----

  /** The readings among the inputs. */
  function ReadingsOf(inps: seq<Input>): seq<Reading> {
    if inps == [] then []
    else
      match Last(inps)
      case Sensors(ticks, gyroZ, dt) => ReadingsOf(Init(inps)) + [Reading(ticks, gyroZ, dt)]
      case Summary(_, _, _) => ReadingsOf(Init(inps))
  }

  lemma {:induction false} PureRunIsTrack(cfg: Configs, inps: seq<Input>)
    requires cfg.Valid()
    ensures PureRun(cfg, inps) == Track(cfg.loc, INIT_LOC, ReadingsOf(inps))
  {
    hide OdometryStep;
    if inps != [] {
      PureRunIsTrack(cfg, Init(inps));
      var last := Last(inps);
      if last.Sensors? {
        assert Init(ReadingsOf(inps)) == ReadingsOf(Init(inps));
      }
    }
  }

  lemma {:induction false} SameHeadings(a: Loc, b: Loc)
    requires Uncorrected(a) == Uncorrected(b)
    ensures a.yawEnc == b.yawEnc && a.yawImu == b.yawImu && a.h.fused == b.h.fused
    ensures a.rejectedEncoder == b.rejectedEncoder
  {
    assert Uncorrected(a).yawEnc == a.yawEnc && Uncorrected(b).yawEnc == b.yawEnc;
    assert Uncorrected(a).yawImu == a.yawImu && Uncorrected(b).yawImu == b.yawImu;
    assert Uncorrected(a).rejectedEncoder == a.rejectedEncoder && Uncorrected(b).rejectedEncoder == b.rejectedEncoder;
    UncorrectedKeepsFused(a, b);
  }

  /** After any run of readings and summaries, corrections and all: the encoder heading is the right wheel's lead over
      the left since the first reading, divided by the wheel base, if no reading was taken for a jump; and the
      uncorrected heading divides the shorter arc from it to the gyro heading by the configured share. */
  lemma {:induction false} HeadingIsDeadReckoned(cfg: Configs, inps: seq<Input>)
    requires cfg.Valid() && ReadingsOf(inps) != []
    ensures var loc, rs := FullRun(cfg, inps).loc, ReadingsOf(inps);
            var from, to := rs[0].ticks, LatestTicks(rs[0].ticks, rs[1..]);
            && (loc.rejectedEncoder == 0 ==>
                  Congruent((Right(cfg.loc, from, to) - Left(cfg.loc, from, to)) / cfg.loc.wheelBase, loc.yawEnc))
            && Congruent(SwingsOf(cfg.loc, Next(cfg.loc, INIT_LOC, rs[0]), rs[1..]), loc.yawImu)
            && Between(loc.h.fused, loc.yawEnc)
               == Times(1.0 - cfg.loc.fusionAlpha, Between(loc.yawImu, loc.yawEnc))
            && Between(loc.yawImu, loc.h.fused) == Times(cfg.loc.fusionAlpha, Between(loc.yawImu, loc.yawEnc))
  {
    hide FullRun, PureRun, ReadingsOf, Track, Next, TurnsOf, SwingsOf, LatestTicks, Congruent, Right, Left, Between,
      Times, Uncorrected;
    SameOdometry(cfg, inps);
    PureRunIsTrack(cfg, inps);
    SameHeadings(FullRun(cfg, inps).loc, PureRun(cfg, inps));
    DeadReckoning(cfg.loc, ReadingsOf(inps));
  }
}
