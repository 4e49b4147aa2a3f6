/** Which scan the manager asks for, what takes it to each state and what it remembers, told from the state entered
    (include/robot_slamd/active_scan/active_scan_manager.hpp). */
module ManagerTransitions {
  import opened Angles
  import opened ScanManager

  // ----- what is asked for -----

  /** The order in which kinds of request are considered. */
  function Rank(req: Request): nat {
    match req
    case LostRecovery => 0
    case DegradedScan => 1
    case SingleRoute => 2
    case LowUpdate => 3
    case LowQuality => 4
    case Startup => 5
    case NoRequest => 6
  }

  /** The supervisor gives ground for a request of this kind, and the configuration knows it. */
  ghost predicate Calls(cfg: Config, startupRequested: bool, inp: Input, req: Request) {
    var poor := cfg.lowQualityScan && (inp.recommends || inp.sup == Recommending);
    match req
    case LostRecovery => cfg.lostScan && (inp.lost || inp.sup == Lost)
    case DegradedScan => cfg.degradedScan && (inp.degraded || inp.sup == Degraded) && inp.routes > 0
    case SingleRoute => poor && (inp.routes <= 1 || inp.reasonSingleRoute)
    case LowUpdate => poor && inp.reasonLowUpdate
    case LowQuality => poor
    case Startup => cfg.startupScan && !startupRequested && (inp.sup == Mapping || inp.sup == Ready)
    case NoRequest => true
  }

  /** The request is for the first ground there is. */
  lemma {:induction false} RequestIsFirst(cfg: Config, startupRequested: bool, inp: Input, req: Request)
    ensures RequestOf(cfg, startupRequested, inp) == req <==>
            && Calls(cfg, startupRequested, inp, req)
            && forall other :: Calls(cfg, startupRequested, inp, other) ==> Rank(req) <= Rank(other)
  {
    var made := RequestOf(cfg, startupRequested, inp);
    assert Calls(cfg, startupRequested, inp, made);
    forall other | Calls(cfg, startupRequested, inp, other) ensures Rank(made) <= Rank(other) {}
    hide Calls;
  }

  /** Somebody asks for a scan, by a request or by the state the supervisor is in. */
  ghost predicate Backs(inp: Input) {
    inp.recommends || inp.degraded || inp.lost || inp.sup == Recommending || inp.sup == Degraded || inp.sup == Lost
  }

  ghost predicate Grants(cfg: Config, req: Request, inp: Input) {
    req != NoRequest && (req == Startup || Backs(inp) || !cfg.requireRecommendation)
  }

  /** Within the cooldown, or the least time between scans, of an earlier one. */
  ghost predicate IsQuiet(cfg: Config, m: Manager, inp: Input) {
    || (0.0 <= m.cooldownUntil && inp.now < m.cooldownUntil)
    || (0.0 <= m.lastScan && inp.now < m.lastScan + cfg.minInterval)
  }

  ghost predicate IsFit(cfg: Config, inp: Input) {
    && inp.localizationValid && -cfg.maxLinearSpeed <= inp.linearSpeed <= cfg.maxLinearSpeed
    && cfg.minRoutes <= inp.routes && cfg.minValidRatio <= inp.validRatio
  }

  ghost predicate IsTurning(cfg: Config, inp: Input) {
    cfg.observeNatural && Deg2Rad(cfg.minYawRate) <= Abs(inp.yawRate) <= Deg2Rad(cfg.maxYawRate)
  }

  ghost predicate IsHeld(cfg: Config, m: Manager, inp: Input) {
    0.0 <= m.requestStart && inp.now >= m.requestStart + cfg.hold
  }

  /** Degrees observed once the rotation of this update has been added. */
  ghost function Observed(cfg: Config, m: Manager, inp: Input): real {
    m.observed + (if IsTurning(cfg, inp) then Rad2Deg(Abs(WrapPi(inp.yaw - m.lastYaw))) else 0.0)
  }

  // ----- the transitions -----

  /** What takes the manager to this state, or keeps it there. */
  ghost predicate Takes(cfg: Config, m: Manager, inp: Input, to: State) {
    var req := RequestOf(cfg, m.startupRequested, inp);
    var granted, quiet, fit, turns := Grants(cfg, req, inp), IsQuiet(cfg, m, inp), IsFit(cfg, inp), IsTurning(cfg, inp);
    var whole, part := Observed(cfg, m, inp) >= cfg.completeAngle, Observed(cfg, m, inp) >= cfg.usefulAngle;
    var watches := m.state == Observing && (turns || fit);
    (to != Idle ==> cfg.enabled)
    && match to
       case Idle =>
         || !cfg.enabled
         || (m.state == Idle && !granted && !(req != NoRequest && quiet))
         || (!granted && (m.state == Armed || m.state == Pending || m.state == WouldScan || m.state == Blocked))
         || (watches && !whole && !granted && !part)
         || (m.state == Cooldown && !quiet)
       case Armed =>
         granted && !quiet && (m.state == Idle || (m.state == Armed && !IsHeld(cfg, m, inp)))
       case Pending =>
         granted && !quiet && ((m.state == Armed && IsHeld(cfg, m, inp)) || (m.state == Blocked && fit))
       case WouldScan =>
         granted && fit && ((m.state == Pending && !quiet) || (m.state == WouldScan && !turns))
       case Observing =>
         || (m.state == WouldScan && granted && turns) || (watches && !whole && (granted || part))
       case Completed => watches && whole
       case Cooldown => m.state == Completed || (m.state == Cooldown && quiet)
       case Blocked =>
         || (m.state == Idle && req != NoRequest && quiet) || (m.state == Armed && granted && quiet)
         || (m.state == Pending && granted && (quiet || !fit)) || (m.state == WouldScan && granted && !turns && !fit)
         || (m.state == Observing && !turns && !fit) || (m.state == Blocked && granted && (quiet || !fit))
  }

  lemma {:induction false} RateIff(rate: real, low: real, high: real)
    ensures low <= Rad2Deg(Abs(rate)) <= high <==> Deg2Rad(low) <= Abs(rate) <= Deg2Rad(high)
  {}

  lemma {:induction false} PartsMean(cfg: Config, m: Manager, inp: Input)
    requires cfg.Valid()
    ensures var v, req := ViewOf(cfg, m, inp), RequestOf(cfg, m.startupRequested, inp);
            && (v.allowed <==> Grants(cfg, req, inp)) && (v.present <==> req != NoRequest)
            && (v.startup <==> req == Startup) && (v.cooling <==> IsQuiet(cfg, m, inp))
            && (v.canStart <==> IsFit(cfg, inp)) && (v.rotating <==> IsTurning(cfg, inp))
  {
    RateIff(inp.yawRate, cfg.minYawRate, cfg.maxYawRate);
    hide RequestOf, Deg2Rad, Rad2Deg;
  }

  lemma {:induction false} RotationMeans(cfg: Config, m: Manager, inp: Input)
    ensures (if IsTurning(cfg, inp) then Rotated(m, inp.yaw) else m).observed == Observed(cfg, m, inp)
  {
    hide WrapPi, Rad2Deg, IsTurning;
  }

  lemma {:induction false} StepTakes(cfg: Config, m: Manager, inp: Input)
    requires cfg.Valid()
    ensures Takes(cfg, m, inp, Step(cfg, m, inp).state)
  {
    PartsMean(cfg, m, inp);
    RotationMeans(cfg, m, inp);
    hide RequestOf, ViewOf, Grants, IsQuiet, IsFit, IsTurning, Observed, Rotated, Counted, Quiet;
  }

  lemma {:induction false} TakesOne(cfg: Config, m: Manager, inp: Input, to: State, other: State)
    requires Takes(cfg, m, inp, to) && Takes(cfg, m, inp, other)
    ensures to == other
  {
    assert Grants(cfg, RequestOf(cfg, m.startupRequested, inp), inp) ==>
        RequestOf(cfg, m.startupRequested, inp) != NoRequest;
    hide RequestOf, Grants, IsQuiet, IsFit, IsTurning, Observed, IsHeld;
  }

  /** An update leads to a state exactly when the ground for it is given. */
  lemma {:induction false} StateIff(cfg: Config, m: Manager, inp: Input, to: State)
    requires cfg.Valid()
    ensures Step(cfg, m, inp).state == to <==> Takes(cfg, m, inp, to)
  {
    hide Step, Takes;
    StepTakes(cfg, m, inp);
    if Takes(cfg, m, inp, to) {
      TakesOne(cfg, m, inp, to, Step(cfg, m, inp).state);
    }
  }

  // ----- what is remembered -----

  ghost predicate Enters(m: Manager, n: Manager, s: State) { n.state == s && m.state != s }

  /** The observation starts from scratch. */
  ghost predicate Clears(cfg: Config, m: Manager, n: Manager) {
    && cfg.enabled
    && (m.state == Idle || Enters(m, n, Observing) || (m.state == Cooldown && n.state == Idle))
  }

  ghost function One(b: bool): nat { if b then 1 else 0 }

  /** Times after an update. The quiet time before the next scan begins with an announced scan and is extended when
      one is completed. */
  ghost predicate KeepsTimes(cfg: Config, m: Manager, inp: Input, n: Manager) {
    var quiet := inp.now + (if cfg.cooldown >= cfg.minInterval then cfg.cooldown else cfg.minInterval);
    var later := if m.cooldownUntil >= quiet then m.cooldownUntil else quiet;
    var clears := cfg.enabled && m.state == Pending && n.state == Idle;
    var starts := Enters(m, n, Pending) && (m.state == Armed || m.pendingStart < 0.0);
    && n.requestStart == (if Enters(m, n, Armed) then inp.now
                          else if cfg.enabled && m.state == Armed && n.state == Idle then -1.0 else m.requestStart)
    && n.pendingStart == (if starts then inp.now
                          else if Enters(m, n, Armed) || clears then -1.0 else m.pendingStart)
    && n.lastScan == (if Enters(m, n, WouldScan) then inp.now else m.lastScan)
    && n.cooldownUntil == (if Enters(m, n, WouldScan) then quiet else if Enters(m, n, Cooldown) then later
                           else m.cooldownUntil)
    && (n.startupRequested <==>
        m.startupRequested || (Enters(m, n, Armed) && RequestOf(cfg, m.startupRequested, inp) == Startup))
  }

  /** Angles after an update. */
  ghost predicate KeepsAngles(cfg: Config, m: Manager, inp: Input, n: Manager) {
    var turned := cfg.enabled && m.state == Observing && IsTurning(cfg, inp);
    && n.observed == (if Clears(cfg, m, n) then 0.0 else if turned then Observed(cfg, m, inp) else m.observed)
    && n.lastYaw == (if m.state == Observing && !turned then m.lastYaw else inp.yaw)
    && (n.useful <==> n.observed >= cfg.usefulAngle || (m.useful && !Clears(cfg, m, n)) || Enters(m, n, Completed))
  }

  /** Counts after an update: of every state entered. */
  ghost predicate KeepsCounts(m: Manager, n: Manager) {
    n.stats == Stats(m.stats.requests + One(Enters(m, n, Armed)), m.stats.wouldStarts + One(Enters(m, n, WouldScan)),
                     m.stats.blocks + One(Enters(m, n, Blocked)), m.stats.completions + One(Enters(m, n, Completed)),
                     m.stats.usefulCompletions + One(Enters(m, n, Completed)))
  }

  lemma {:induction false} QuietMeans(cfg: Config)
    ensures Quiet(cfg) == if cfg.cooldown >= cfg.minInterval then cfg.cooldown else cfg.minInterval
  {}

  lemma {:induction false} LaterMeans(a: real, b: real)
    ensures Max(a, b) == if a >= b then a else b
  {}

  /** What entering a state does to what the update has decided so far. */
  lemma {:induction false} EnteredMeans(cfg: Config, q: Manager, next: State, yaw: real)
    ensures var n := Entered(cfg, q, next, yaw);
            && n.state == next && n.requestStart == q.requestStart && n.pendingStart == q.pendingStart
            && n.lastScan == q.lastScan && n.cooldownUntil == q.cooldownUntil
            && n.startupRequested == q.startupRequested && n.observed == q.observed
            && n.lastYaw == (if q.state == Observing then q.lastYaw else yaw)
            && (n.useful <==> q.useful || q.observed >= cfg.usefulAngle)
  {
    hide Counted;
  }

  /** The first half of an update that is switched on. */
  function Decided(cfg: Config, m: Manager, inp: Input): (Manager, State) {
    Decide(cfg, m, ViewOf(cfg, m, inp), inp.now, inp.yaw)
  }

  lemma {:induction false} StepIsEntered(cfg: Config, m: Manager, inp: Input)
    ensures var (q, next) := if cfg.enabled then Decided(cfg, m, inp) else (m, Idle);
            Step(cfg, m, inp) == Entered(cfg, q, next, inp.yaw) && q.state == m.state && q.stats == m.stats
  {
    hide Entered, ViewOf, Rotated, Quiet, Max;
  }

  lemma {:induction false} DecidedTimesEarly(cfg: Config, m: Manager, inp: Input)
    requires cfg.Valid() && cfg.enabled && (m.state == Idle || m.state == Armed || m.state == Pending)
    ensures var (q, next) := Decided(cfg, m, inp); KeepsTimes(cfg, m, inp, q.(state := next))
  {
    PartsMean(cfg, m, inp);
    QuietMeans(cfg);
    hide RequestOf, ViewOf, Grants, IsQuiet, IsFit, IsTurning, Quiet;
  }

  lemma {:induction false} DecidedTimesLate(cfg: Config, m: Manager, inp: Input)
    requires cfg.Valid() && cfg.enabled && m.state != Idle && m.state != Armed && m.state != Pending
    ensures var (q, next) := Decided(cfg, m, inp); KeepsTimes(cfg, m, inp, q.(state := next))
  {
    PartsMean(cfg, m, inp);
    QuietMeans(cfg);
    LaterMeans(m.cooldownUntil, inp.now + Quiet(cfg));
    hide RequestOf, ViewOf, Grants, IsQuiet, IsFit, IsTurning, Rotated, Quiet, Max;
  }

  lemma {:induction false} SameTimes(cfg: Config, m: Manager, inp: Input, a: Manager, b: Manager)
    requires KeepsTimes(cfg, m, inp, a) && a.state == b.state && a.requestStart == b.requestStart
    requires a.pendingStart == b.pendingStart && a.lastScan == b.lastScan && a.cooldownUntil == b.cooldownUntil
    requires a.startupRequested == b.startupRequested
    ensures KeepsTimes(cfg, m, inp, b)
  {
    hide RequestOf;
  }

  lemma {:induction false} OffKeepsTimes(cfg: Config, m: Manager, inp: Input)
    requires !cfg.enabled
    ensures KeepsTimes(cfg, m, inp, m.(state := Idle))
  {
    hide RequestOf;
  }

  lemma {:induction false} StepKeepsTimes(cfg: Config, m: Manager, inp: Input)
    requires cfg.Valid()
    ensures KeepsTimes(cfg, m, inp, Step(cfg, m, inp))
  {
    var (q, next) := if cfg.enabled then Decided(cfg, m, inp) else (m, Idle);
    StepIsEntered(cfg, m, inp);
    EnteredMeans(cfg, q, next, inp.yaw);
    hide Step, Decided, Entered, RequestOf, KeepsTimes;
    if !cfg.enabled {
      OffKeepsTimes(cfg, m, inp);
    } else if m.state == Idle || m.state == Armed || m.state == Pending {
      DecidedTimesEarly(cfg, m, inp);
    } else {
      DecidedTimesLate(cfg, m, inp);
    }
    SameTimes(cfg, m, inp, q.(state := next), Step(cfg, m, inp));
  }

  /** The angles once an update has decided on the next state. */
  ghost predicate DecidesAngles(cfg: Config, m: Manager, inp: Input, q: Manager, next: State) {
    var n := q.(state := next);
    && q.observed == (if Clears(cfg, m, n) then 0.0
                      else if m.state == Observing && IsTurning(cfg, inp) then Observed(cfg, m, inp)
                      else m.observed)
    && q.lastYaw == (if Clears(cfg, m, n) || (m.state == Observing && IsTurning(cfg, inp)) then inp.yaw
                     else m.lastYaw)
    && (q.useful <==> (m.useful && !Clears(cfg, m, n)) || Enters(m, n, Completed))
  }

  lemma {:induction false} DecidedAnglesEarly(cfg: Config, m: Manager, inp: Input)
    requires cfg.Valid() && cfg.enabled && (m.state == Idle || m.state == Armed || m.state == Pending)
    ensures var (q, next) := Decided(cfg, m, inp); DecidesAngles(cfg, m, inp, q, next)
  {
    hide RequestOf, ViewOf, IsTurning, Observed, Rotated, Quiet, Max;
  }

  lemma {:induction false} DecidedAnglesLate(cfg: Config, m: Manager, inp: Input)
    requires cfg.Valid() && cfg.enabled && m.state != Idle && m.state != Armed && m.state != Pending
    ensures var (q, next) := Decided(cfg, m, inp); DecidesAngles(cfg, m, inp, q, next)
  {
    PartsMean(cfg, m, inp);
    RotationMeans(cfg, m, inp);
    hide RequestOf, ViewOf, Grants, IsQuiet, IsFit, IsTurning, Observed, Rotated, Quiet, Max;
  }

  lemma {:induction false} DecidedAngles(cfg: Config, m: Manager, inp: Input)
    requires cfg.Valid() && cfg.enabled
    ensures var (q, next) := Decided(cfg, m, inp); DecidesAngles(cfg, m, inp, q, next)
  {
    hide *;
    if m.state == Idle || m.state == Armed || m.state == Pending {
      DecidedAnglesEarly(cfg, m, inp);
    } else {
      DecidedAnglesLate(cfg, m, inp);
    }
  }

  lemma {:induction false} StepKeepsAngles(cfg: Config, m: Manager, inp: Input)
    requires cfg.Valid()
    ensures KeepsAngles(cfg, m, inp, Step(cfg, m, inp))
  {
    var (q, next) := if cfg.enabled then Decided(cfg, m, inp) else (m, Idle);
    StepIsEntered(cfg, m, inp);
    EnteredMeans(cfg, q, next, inp.yaw);
    if cfg.enabled {
      DecidedAngles(cfg, m, inp);
    }
    hide Step, Decided, Entered, IsTurning, Observed;
  }

  lemma {:induction false} EnteredCounts(cfg: Config, q: Manager, next: State, yaw: real)
    requires next == Completed && q.state != Completed ==> q.useful
    ensures KeepsCounts(q, Entered(cfg, q, next, yaw))
  {}

  lemma {:induction false} StepKeepsCounts(cfg: Config, m: Manager, inp: Input)
    requires cfg.Valid()
    ensures KeepsCounts(m, Step(cfg, m, inp))
  {
    var (q, next) := if cfg.enabled then Decided(cfg, m, inp) else (m, Idle);
    StepIsEntered(cfg, m, inp);
    if cfg.enabled {
      DecidedAngles(cfg, m, inp);
    }
    EnteredCounts(cfg, q, next, inp.yaw);
    hide Step, Decided, Entered, IsTurning, Observed;
  }

  /** What an update remembers and counts. */
  lemma {:induction false} StepRemembers(cfg: Config, m: Manager, inp: Input)
    requires cfg.Valid()
    ensures var n := Step(cfg, m, inp);
            KeepsTimes(cfg, m, inp, n) && KeepsAngles(cfg, m, inp, n) && KeepsCounts(m, n)
  {
    hide *;
    StepKeepsTimes(cfg, m, inp);
    StepKeepsAngles(cfg, m, inp);
    StepKeepsCounts(cfg, m, inp);
  }
}
