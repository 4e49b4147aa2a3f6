/** What takes the command planner to each state and what it remembers, told from the state entered
    (include/robot_slamd/active_scan/active_scan_command_planner.hpp). */
module PlannerTransitions {
  import opened Angles
  import opened ScanPlanner

  ghost predicate IsAsked(inp: Input) { inp.typed || inp.recommended }

  ghost predicate IsQuiet(p: Planner, inp: Input) { 0.0 <= p.cooldownUntil && inp.now < p.cooldownUntil }

  /** A rotation may begin: a typed request, no cooldown, and all that the configuration asks for. */
  ghost predicate IsFit(cfg: Config, p: Planner, inp: Input) {
    && inp.typed && !IsQuiet(p, inp) && -cfg.maxLinearSpeed <= inp.linearSpeed <= cfg.maxLinearSpeed
    && (inp.wouldStart || !cfg.requireWouldStart) && (inp.recommended || !cfg.requireRecommended)
    && (inp.localizationValid || !cfg.requireLocalization)
  }

  /** A rotation that runs has to be given up. */
  ghost predicate IsBroken(cfg: Config, p: Planner, inp: Input) {
    || (p.commandStart >= 0.0 && inp.now > p.commandStart + cfg.timeout)
    || !IsAsked(inp) || (cfg.requireLocalization && !inp.localizationValid)
    || inp.linearSpeed > cfg.maxLinearSpeed || inp.linearSpeed < -cfg.maxLinearSpeed
    || Abs(inp.yawRate) > Deg2Rad(cfg.maxYawRate)
  }

  ghost predicate IsHeld(cfg: Config, p: Planner, inp: Input) {
    0.0 <= p.precheckStart && inp.now >= p.precheckStart + cfg.hold
  }

  /** The robot turns at a speed that counts. */
  ghost predicate IsTurning(cfg: Config, inp: Input) {
    Deg2Rad(cfg.minYawRate) <= Abs(inp.yawRate) <= Deg2Rad(cfg.maxYawRate)
  }

  /** Degrees observed once this update has been added: the angle since the yaw last counted, if it counts. */
  ghost function Observed(cfg: Config, p: Planner, inp: Input): real {
    p.observed + (if IsTurning(cfg, inp) then Rad2Deg(Abs(WrapPi(inp.yaw - p.lastYaw))) else 0.0)
  }

  /** What takes the planner to this state, or keeps it there. */
  ghost predicate Takes(cfg: Config, p: Planner, inp: Input, to: State) {
    var asked, fit, broken := IsAsked(inp), IsFit(cfg, p, inp), IsBroken(cfg, p, inp);
    (to != Disabled ==> cfg.enabled)
    && match to
       case Disabled => !cfg.enabled
       case Idle =>
         || p.state == Disabled || (p.state == Cooldown && !IsQuiet(p, inp))
         || (!asked && (p.state == Idle || p.state == Precheck || p.state == Blocked))
       case Precheck =>
         fit && (p.state == Idle || p.state == Blocked || (p.state == Precheck && !IsHeld(cfg, p, inp)))
       case Commanding => p.state == Precheck && fit && IsHeld(cfg, p, inp)
       case Verifying =>
         !broken && (p.state == Commanding || (p.state == Verifying && Observed(cfg, p, inp) < cfg.completeAngle))
       case Completed => p.state == Verifying && !broken && Observed(cfg, p, inp) >= cfg.completeAngle
       case Aborted => broken && (p.state == Commanding || p.state == Verifying)
       case Cooldown => p.state == Completed || p.state == Aborted || (p.state == Cooldown && IsQuiet(p, inp))
       case Blocked => asked && !fit && (p.state == Idle || p.state == Precheck || p.state == Blocked)
  }

  lemma {:induction false} RateIff(rate: real, low: real, high: real)
    ensures Rad2Deg(Abs(rate)) > high <==> Abs(rate) > Deg2Rad(high)
    ensures low <= Rad2Deg(Abs(rate)) <= high <==> Deg2Rad(low) <= Abs(rate) <= Deg2Rad(high)
  {}

  lemma {:induction false} PartsMean(cfg: Config, p: Planner, inp: Input)
    requires cfg.Valid()
    ensures HasRequest(inp) <==> IsAsked(inp)
    ensures Ready(cfg, p, inp) <==> IsFit(cfg, p, inp)
    ensures CoolingDown(p, inp.now) <==> IsQuiet(p, inp)
    ensures MustAbort(cfg, p, inp) <==> IsBroken(cfg, p, inp)
    ensures Rotated(cfg, p, inp).observed == Observed(cfg, p, inp)
    ensures Rotated(cfg, p, inp).lastYaw == if IsTurning(cfg, inp) then inp.yaw else p.lastYaw
    ensures IsFit(cfg, p, inp) ==> IsAsked(inp)
  {
    RateIff(inp.yawRate, cfg.minYawRate, cfg.maxYawRate);
    hide WrapPi, Deg2Rad, Rad2Deg;
  }

  lemma {:induction false} StepTakes(cfg: Config, p: Planner, inp: Input)
    requires cfg.Valid()
    ensures Takes(cfg, p, inp, Step(cfg, p, inp).state)
  {
    PartsMean(cfg, p, inp);
    hide HasRequest, Ready, CoolingDown, MustAbort, Rotated, IsAsked, IsFit, IsQuiet, IsBroken, Observed, IsTurning;
  }

  lemma {:induction false} TakesOne(cfg: Config, p: Planner, inp: Input, to: State, other: State)
    requires Takes(cfg, p, inp, to) && Takes(cfg, p, inp, other)
    ensures to == other
  {
    assert IsFit(cfg, p, inp) ==> IsAsked(inp);
    hide IsAsked, IsFit, IsQuiet, IsBroken, Observed, IsTurning, IsHeld;
  }

  /** An update leads to a state exactly when the ground for it is given. */
  lemma {:induction false} StateIff(cfg: Config, p: Planner, inp: Input, to: State)
    requires cfg.Valid()
    ensures Step(cfg, p, inp).state == to <==> Takes(cfg, p, inp, to)
  {
    hide Step, Takes;
    StepTakes(cfg, p, inp);
    if Takes(cfg, p, inp, to) {
      TakesOne(cfg, p, inp, to, Step(cfg, p, inp).state);
    }
  }

  // ----- what is remembered -----

  ghost predicate Enters(p: Planner, n: Planner, s: State) { n.state == s && p.state != s }

  /** An update that finds the planner idle, or ends a cooldown or the precheck, starts from scratch. */
  ghost predicate Clears(p: Planner, n: Planner) {
    n.state != Disabled && (p.state == Idle || Enters(p, n, Commanding) || (p.state == Cooldown && Enters(p, n, Idle)))
  }

  ghost function One(b: bool): nat { if b then 1 else 0 }

  /** The times that an update remembers. */
  ghost predicate KeepsTimes(cfg: Config, p: Planner, inp: Input, n: Planner) {
    && n.precheckStart == (if Enters(p, n, Precheck) then inp.now else if Clears(p, n) then -1.0 else p.precheckStart)
    && n.commandStart == (if Enters(p, n, Commanding) then inp.now else if Clears(p, n) then -1.0 else p.commandStart)
    && n.lastExecution == (if Enters(p, n, Commanding) then inp.now else p.lastExecution)
    && n.cooldownUntil == (if Enters(p, n, Cooldown) then inp.now + cfg.cooldown else p.cooldownUntil)
  }

  /** The angles that it remembers, and what it counts. */
  ghost predicate KeepsTurn(cfg: Config, p: Planner, inp: Input, n: Planner) {
    var turns := p.state == Verifying && (n.state == Verifying || n.state == Completed);
    && n.observed == (if Clears(p, n) then 0.0 else if turns then Observed(cfg, p, inp) else p.observed)
    && n.lastYaw == (if Clears(p, n) || (turns && IsTurning(cfg, inp)) then inp.yaw else p.lastYaw)
    && n.stats == Stats(p.stats.prechecks + One(Enters(p, n, Precheck)), p.stats.starts + One(Enters(p, n, Commanding)),
                        p.stats.blocks + One(Enters(p, n, Blocked)), p.stats.completions + One(Enters(p, n, Completed)),
                        p.stats.aborts + One(Enters(p, n, Aborted)))
  }

  lemma {:induction false} StepKeepsTimes(cfg: Config, p: Planner, inp: Input)
    requires cfg.Valid()
    ensures KeepsTimes(cfg, p, inp, Step(cfg, p, inp))
  {
    hide HasRequest, Ready, CoolingDown, MustAbort, Max;
  }

  lemma {:induction false} StepKeepsTurn(cfg: Config, p: Planner, inp: Input)
    requires cfg.Valid()
    ensures KeepsTurn(cfg, p, inp, Step(cfg, p, inp))
  {
    PartsMean(cfg, p, inp);
    hide HasRequest, Ready, CoolingDown, MustAbort, Rotated, IsAsked, IsFit, IsQuiet, IsBroken, Observed, IsTurning;
  }

  /** What an update remembers: times, angles and counts. */
  lemma {:induction false} StepRemembers(cfg: Config, p: Planner, inp: Input)
    requires cfg.Valid()
    ensures var n := Step(cfg, p, inp); KeepsTimes(cfg, p, inp, n) && KeepsTurn(cfg, p, inp, n)
  {
    hide *;
    StepKeepsTimes(cfg, p, inp);
    StepKeepsTurn(cfg, p, inp);
  }
}
