/** The manager that turns the supervisor's view into scan requests
    (include/robot_slamd/active_scan/active_scan_manager.hpp). */
module ScanManager {
  import opened Angles

  datatype State = Idle | Armed | Pending | WouldScan | Observing | Completed | Cooldown | Blocked

  datatype Request = NoRequest | Startup | LowQuality | LowUpdate | SingleRoute | DegradedScan | LostRecovery

  datatype SupState = Ready | Mapping | Recommending | Degraded | Lost | OtherState

  datatype Config = Config(
    enabled: bool, lostScan: bool, degradedScan: bool, lowQualityScan: bool, startupScan: bool,
    requireRecommendation: bool,
    observeNatural: bool, maxLinearSpeed: real, minRoutes: int, minValidRatio: real, minYawRate: real, maxYawRate: real,
    hold: real, cooldown: real, minInterval: real, usefulAngle: real, completeAngle: real)
  {
    /** What validate_config demands of the active_scan section. */
    ghost predicate Valid() {
      && hold >= 0.0 && cooldown >= 0.0 && minInterval >= 0.0 && 0.0 <= usefulAngle <= completeAngle
      && maxLinearSpeed >= 0.0
    }
  }

  /** `sup` to `lost` is the supervisor's snapshot; of its reason only two texts matter. */
  datatype Input = Input(now: real, yaw: real, linearSpeed: real, yawRate: real, localizationValid: bool,
                         sup: SupState, recommends: bool, degraded: bool, lost: bool, routes: int, validRatio: real,
                         reasonSingleRoute: bool, reasonLowUpdate: bool)

  datatype Stats = Stats(requests: nat, wouldStarts: nat, blocks: nat, completions: nat, usefulCompletions: nat)

  datatype Manager = Manager(state: State, requestStart: real, pendingStart: real, lastScan: real, cooldownUntil: real,
                             startupRequested: bool, observed: real, lastYaw: real, useful: bool, stats: Stats)

  const INIT_MANAGER := Manager(Idle, -1.0, -1.0, -1.0, -1.0, false, 0.0, 0.0, false, Stats(0, 0, 0, 0, 0))

  // ----- pure parts -----

  predicate IsLost(inp: Input) { inp.lost || inp.sup == Lost }

  predicate IsDegraded(inp: Input) { inp.degraded || inp.sup == Degraded }

  predicate IsRecommending(inp: Input) { inp.recommends || inp.sup == Recommending }

  function RequestOf(cfg: Config, startupRequested: bool, inp: Input): Request {
    if cfg.lostScan && IsLost(inp) then LostRecovery
    else if cfg.degradedScan && IsDegraded(inp) && inp.routes >= 1 then DegradedScan
    else if cfg.lowQualityScan && IsRecommending(inp) then
      if inp.routes < 2 || inp.reasonSingleRoute then SingleRoute
      else if inp.reasonLowUpdate then LowUpdate
      else LowQuality
    else if cfg.startupScan && !startupRequested && (inp.sup == Ready || inp.sup == Mapping) then Startup
    else NoRequest
  }

  predicate IsAllowed(cfg: Config, req: Request, inp: Input) {
    && req != NoRequest
    && (!cfg.requireRecommendation || req == Startup || IsRecommending(inp) || IsDegraded(inp) || IsLost(inp))
  }

  predicate CanStart(cfg: Config, inp: Input) {
    && Abs(inp.linearSpeed) <= cfg.maxLinearSpeed && inp.routes >= cfg.minRoutes && inp.validRatio >= cfg.minValidRatio
    && inp.localizationValid
  }

  predicate IsRotating(cfg: Config, inp: Input) {
    cfg.observeNatural && cfg.minYawRate <= Rad2Deg(Abs(inp.yawRate)) <= cfg.maxYawRate
  }

  predicate CoolingDown(cfg: Config, m: Manager, now: real) {
    (m.cooldownUntil >= 0.0 && now < m.cooldownUntil) || (m.lastScan >= 0.0 && now - m.lastScan < cfg.minInterval)
  }

  function Quiet(cfg: Config): real { Max(cfg.cooldown, cfg.minInterval) }

  function Reset(m: Manager, yaw: real): Manager { m.(observed := 0.0, useful := false, lastYaw := yaw) }

  function Rotated(m: Manager, yaw: real): (r: Manager)
    ensures r == m.(observed := r.observed, lastYaw := yaw)
  {
    m.(observed := m.observed + Rad2Deg(Abs(WrapPi(yaw - m.lastYaw))), lastYaw := yaw)
  }

  // ----- one update -----

  /** What an update knows before it decides. */
  datatype View = View(allowed: bool, present: bool, startup: bool, cooling: bool, canStart: bool, rotating: bool)

  function ViewOf(cfg: Config, m: Manager, inp: Input): View {
    var req := RequestOf(cfg, m.startupRequested, inp);
    View(IsAllowed(cfg, req, inp), req != NoRequest, req == Startup, CoolingDown(cfg, m, inp.now), CanStart(cfg, inp),
         IsRotating(cfg, inp))
  }

  function Decide(cfg: Config, m: Manager, v: View, now: real, yaw: real): (Manager, State) {
    match m.state
    case Idle =>
      var q := Reset(m, yaw);
      if v.allowed && !v.cooling then
        var asked := q.startupRequested || v.startup;
        var started := q.(requestStart := now, pendingStart := -1.0, startupRequested := asked);
        (started, Armed)
      else (q, if v.present && v.cooling then Blocked else Idle)
    case Armed =>
      if !v.allowed then (m.(requestStart := -1.0), Idle)
      else if v.cooling then (m, Blocked)
      else if m.requestStart >= 0.0 && now - m.requestStart >= cfg.hold then (m.(pendingStart := now), Pending)
      else (m, Armed)
    case Pending =>
      if !v.allowed then (m.(pendingStart := -1.0), Idle)
      else if !v.canStart || v.cooling then (m, Blocked)
      else (m.(lastScan := now, cooldownUntil := now + Quiet(cfg)), WouldScan)
    case WouldScan =>
      if !v.allowed then (m, Idle)
      else if v.rotating then (Reset(m, yaw), Observing)
      else (m, if v.canStart then WouldScan else Blocked)
    case Observing =>
      if !v.rotating && !v.canStart then (m, Blocked)
      else
        var q := if v.rotating then Rotated(m, yaw) else m;
        if q.observed >= cfg.completeAngle then (q.(useful := true), Completed)
        else (q, if !v.allowed && q.observed < cfg.usefulAngle then Idle else Observing)
    case Completed => (m.(cooldownUntil := Max(m.cooldownUntil, now + Quiet(cfg))), Cooldown)
    case Cooldown => if v.cooling then (m, Cooldown) else (Reset(m, yaw), Idle)
    case Blocked =>
      if !v.allowed then (m, Idle)
      else if !v.cooling && v.canStart then
        (m.(pendingStart := if m.pendingStart < 0.0 then now else m.pendingStart), Pending)
      else (m, Blocked)
  }

  function Counted(t: Stats, entered: State, useful: bool): Stats {
    match entered
    case Armed => t.(requests := t.requests + 1)
    case WouldScan => t.(wouldStarts := t.wouldStarts + 1)
    case Blocked => t.(blocks := t.blocks + 1)
    case Completed => t.(completions := t.completions + 1,
                         usefulCompletions := t.usefulCompletions + (if useful then 1 else 0))
    case _ => t
  }

  /** The yaw is remembered except while rotation is being observed. */
  function Remembered(m: Manager, yaw: real): Manager { if m.state != Observing then m.(lastYaw := yaw) else m }

  function Changed(m: Manager, next: State): Manager {
    if next == m.state then m else m.(state := next, stats := Counted(m.stats, next, m.useful))
  }

  function Entered(cfg: Config, m: Manager, next: State, yaw: real): (r: Manager)
    ensures r.state == next && r.cooldownUntil == m.cooldownUntil && r.lastScan == m.lastScan
    ensures r.startupRequested == m.startupRequested
  {
    var r := Changed(Remembered(m, yaw), next);
    if r.observed >= cfg.usefulAngle then r.(useful := true) else r
  }

  function Step(cfg: Config, m: Manager, inp: Input): Manager {
    if !cfg.enabled then Entered(cfg, m, Idle, inp.yaw)
    else
      var (q, next) := Decide(cfg, m, ViewOf(cfg, m, inp), inp.now, inp.yaw);
      Entered(cfg, q, next, inp.yaw)
  }

  // ----- the object -----

  class ActiveScanManager {
    const cfg: Config
    var state: State
    var requestStart: real
    var pendingStart: real
    var lastScan: real
    var cooldownUntil: real
    var startupRequested: bool
    var observed: real
    var lastYaw: real
    var useful: bool
    var stats: Stats

    function Value(): Manager
      reads this
    {
      Manager(state, requestStart, pendingStart, lastScan, cooldownUntil, startupRequested, observed, lastYaw, useful,
              stats)
    }

    constructor (cfg: Config)
      ensures this.cfg == cfg && Value() == INIT_MANAGER
    {
      this.cfg := cfg;
      state, requestStart, pendingStart, lastScan, cooldownUntil := Idle, -1.0, -1.0, -1.0, -1.0;
      startupRequested, observed, lastYaw, useful, stats := false, 0.0, 0.0, false, Stats(0, 0, 0, 0, 0);
    }

    method ResetObservedSession(yaw: real)
      modifies this`observed, this`useful, this`lastYaw
      ensures Value() == Reset(old(Value()), yaw)
    {
      observed, useful, lastYaw := 0.0, false, yaw;
    }

    method AccumulateYaw(yaw: real)
      modifies this`observed, this`lastYaw
      ensures Value() == Rotated(old(Value()), yaw)
    {
      hide WrapPi, Abs, Rad2Deg;
      observed := observed + Rad2Deg(Abs(WrapPi(yaw - lastYaw)));
      lastYaw := yaw;
    }

    method NextState(v: View, now: real, yaw: real) returns (next: State)
      modifies this`requestStart, this`pendingStart, this`lastScan, this`cooldownUntil, this`startupRequested,
               this`observed,
               this`lastYaw, this`useful
      ensures (Value(), next) == Decide(cfg, old(Value()), v, now, yaw)
    {
      hide Rotated, Quiet, Max;
      next := state;
      match state {
        case Idle =>
          ResetObservedSession(yaw);
          if v.allowed && !v.cooling {
            next := Armed;
            requestStart, pendingStart := now, -1.0;
            if v.startup { startupRequested := true; }
          } else if v.present && v.cooling {
            next := Blocked;
          }
        case Armed =>
          if !v.allowed { next, requestStart := Idle, -1.0; }
          else if v.cooling { next := Blocked; }
          else if requestStart >= 0.0 && now - requestStart >= cfg.hold { next, pendingStart := Pending, now; }
        case Pending =>
          if !v.allowed { next, pendingStart := Idle, -1.0; }
          else if !v.canStart || v.cooling { next := Blocked; }
          else { next, lastScan, cooldownUntil := WouldScan, now, now + Quiet(cfg); }
        case WouldScan =>
          if !v.allowed {
            next := Idle;
          } else if v.rotating {
            next := Observing;
            ResetObservedSession(yaw);
          } else if !v.canStart {
            next := Blocked;
          }
        case Observing => next := Observe(v, yaw);
        case Completed =>
          next := Cooldown;
          cooldownUntil := Max(cooldownUntil, now + Quiet(cfg));
        case Cooldown =>
          if !v.cooling {
            next := Idle;
            ResetObservedSession(yaw);
          }
        case Blocked =>
          if !v.allowed {
            next := Idle;
          } else if !v.cooling && v.canStart {
            next := Pending;
            if pendingStart < 0.0 { pendingStart := now; }
          }
      }
    }

    method Observe(v: View, yaw: real) returns (next: State)
      requires state == Observing
      modifies this`observed, this`lastYaw, this`useful
      ensures forall now :: (Value(), next) == Decide(cfg, old(Value()), v, now, yaw)
    {
      hide Rotated;
      next := Observing;
      if v.rotating {
        AccumulateYaw(yaw);
      } else if !v.canStart {
        return Blocked;
      }
      if observed >= cfg.completeAngle {
        next, useful := Completed, true;
      } else if !v.allowed && observed < cfg.usefulAngle {
        next := Idle;
      }
    }

    method CountEntry()
      modifies this`stats
      ensures stats == Counted(old(stats), state, useful)
    {
      if state == Armed { stats := stats.(requests := stats.requests + 1); }
      if state == WouldScan { stats := stats.(wouldStarts := stats.wouldStarts + 1); }
      if state == Blocked { stats := stats.(blocks := stats.blocks + 1); }
      if state == Completed { stats := stats.(completions := stats.completions + 1); }
      if state == Completed && useful { stats := stats.(usefulCompletions := stats.usefulCompletions + 1); }
    }

    method Change(next: State)
      modifies this`state, this`stats
      ensures Value() == Changed(old(Value()), next)
    {
      hide Counted;
      if next != state {
        state := next;
        CountEntry();
      }
    }

    method Enter(next: State, yaw: real)
      modifies this`state, this`lastYaw, this`useful, this`stats
      ensures Value() == Entered(cfg, old(Value()), next, yaw)
    {
      hide Changed;
      if state != Observing { lastYaw := yaw; }
      Change(next);
      if observed >= cfg.usefulAngle { useful := true; }
    }

    method Update(inp: Input)
      modifies this
      ensures Value() == Step(cfg, old(Value()), inp)
    {
      hide Decide, Entered, ViewOf;
      var next := Idle;
      if cfg.enabled {
        next := NextState(ViewOf(cfg, Value(), inp), inp.now, inp.yaw);
      }
      Enter(next, inp.yaw);
    }
  }

  function Run(cfg: Config, inps: seq<Input>, n: nat): Manager
    requires n <= |inps|
  {
    if n == 0 then INIT_MANAGER else Step(cfg, Run(cfg, inps, n - 1), inps[n - 1])
  }

  // ----- startup requests -----

  /** Nothing but a startup request can arise: with that one used up there would be none. */
  ghost predicate OnlyStartup(cfg: Config, inps: seq<Input>) {
    forall i :: 0 <= i < |inps| ==> RequestOf(cfg, true, inps[i]) == NoRequest
  }

  /** When only startup requests can arise, at most one is ever raised, it is withdrawn by the next update,
      and no scan is ever announced. */
  lemma {:induction false} StartupAloneNeverScans(cfg: Config, inps: seq<Input>, n: nat)
    requires n <= |inps| && OnlyStartup(cfg, inps)
    ensures var m := Run(cfg, inps, n);
            && m.stats.wouldStarts == 0 && m.stats.requests <= 1 && (m.state == Idle || m.state == Armed)
            && (m.stats.requests == (if m.startupRequested then 1 else 0)) && (m.state == Armed ==> m.startupRequested)
            && m.lastScan < 0.0 && m.cooldownUntil < 0.0
            && (n > 0 && Run(cfg, inps, n - 1).state == Armed ==> m.state == Idle)
  {
    hide IsLost, IsDegraded, IsRecommending, CanStart, IsRotating;
    if n > 0 {
      StartupAloneNeverScans(cfg, inps, n - 1);
      assert RequestOf(cfg, true, inps[n - 1]) == NoRequest;
    }
  }

  /** Update i raises a startup request: it arms an idle manager. */
  ghost predicate RaisesStartup(cfg: Config, inps: seq<Input>, i: nat)
    requires i < |inps|
  {
    var before := Run(cfg, inps, i);
    && before.state == Idle && Run(cfg, inps, i + 1).state == Armed
    && RequestOf(cfg, before.startupRequested, inps[i]) == Startup
  }

  lemma {:induction false} StepKeepsUsed(cfg: Config, m: Manager, inp: Input)
    requires m.startupRequested
    ensures Step(cfg, m, inp).startupRequested
  {
    hide Entered, ViewOf, Rotated, Quiet, Max;
  }

  lemma {:induction false} StartupIsUsedUp(cfg: Config, inps: seq<Input>, m: nat, n: nat)
    requires m <= n <= |inps|
    ensures Run(cfg, inps, m).startupRequested ==> Run(cfg, inps, n).startupRequested
    decreases n
  {
    hide Step;
    if m < n {
      StartupIsUsedUp(cfg, inps, m, n - 1);
      if Run(cfg, inps, n - 1).startupRequested {
        StepKeepsUsed(cfg, Run(cfg, inps, n - 1), inps[n - 1]);
      }
    }
  }

  lemma {:induction false} ArmedStep(cfg: Config, m: Manager, inp: Input)
    requires cfg.enabled && m.state == Armed
    ensures Step(cfg, m, inp).state == Idle <==> !IsAllowed(cfg, RequestOf(cfg, m.startupRequested, inp), inp)
  {
    hide RequestOf, IsAllowed, CanStart, IsRotating, CoolingDown;
  }

  lemma {:induction false} IdleStep(cfg: Config, m: Manager, inp: Input)
    requires cfg.enabled && m.state == Idle && Step(cfg, m, inp).state == Armed
    ensures Step(cfg, m, inp).startupRequested <==>
            m.startupRequested || RequestOf(cfg, m.startupRequested, inp) == Startup
  {
    hide RequestOf, IsAllowed, CanStart, IsRotating, CoolingDown;
  }

  /** In every run: once a startup request has been raised there is never another, and the next update takes
      the manager back to idle unless something else asks by then. */
  lemma {:induction false} StartupIsWithdrawn(cfg: Config, inps: seq<Input>, i: nat, j: nat)
    requires cfg.enabled && i < j < |inps| && RaisesStartup(cfg, inps, i)
    ensures RequestOf(cfg, Run(cfg, inps, j).startupRequested, inps[j]) != Startup
    ensures Run(cfg, inps, i + 2).state == Idle <==> !IsAllowed(cfg, RequestOf(cfg, true, inps[i + 1]), inps[i + 1])
  {
    hide Step, IsAllowed;
    IdleStep(cfg, Run(cfg, inps, i), inps[i]);
    ArmedStep(cfg, Run(cfg, inps, i + 1), inps[i + 1]);
    StartupIsUsedUp(cfg, inps, i + 1, j);
  }

  // ----- announced scans are spaced -----

  ghost predicate TimesAscend(inps: seq<Input>) {
    && (forall i :: 0 <= i < |inps| ==> inps[i].now >= 0.0)
    && forall i, j :: 0 <= i <= j < |inps| ==> inps[i].now <= inps[j].now
  }

  /** Update i announces a scan. */
  ghost predicate Announces(cfg: Config, inps: seq<Input>, i: nat)
    requires i < |inps|
  {
    Run(cfg, inps, i).state != WouldScan && Run(cfg, inps, i + 1).state == WouldScan
  }

  lemma {:induction false} AnnouncementStep(cfg: Config, m: Manager, inp: Input)
    requires cfg.Valid() && inp.now >= 0.0 && m.cooldownUntil <= inp.now + Quiet(cfg)
    ensures var n := Step(cfg, m, inp);
            && m.cooldownUntil <= n.cooldownUntil <= inp.now + Quiet(cfg)
            && (m.state != WouldScan && n.state == WouldScan ==>
                  && m.state == Pending && !CoolingDown(cfg, m, inp.now) && CanStart(cfg, inp)
                  && IsAllowed(cfg, RequestOf(cfg, m.startupRequested, inp), inp)
                  && n.cooldownUntil == inp.now + Quiet(cfg))
  {
    hide IsAllowed, RequestOf, CanStart, IsRotating, CoolingDown, Rotated, Entered;
  }

  lemma {:induction false} QuietGrows(cfg: Config, inps: seq<Input>, m: nat, n: nat)
    requires cfg.Valid() && TimesAscend(inps) && m <= n <= |inps|
    ensures Run(cfg, inps, m).cooldownUntil <= Run(cfg, inps, n).cooldownUntil
    ensures n > 0 ==> Run(cfg, inps, n).cooldownUntil <= inps[n - 1].now + Quiet(cfg)
    decreases n
  {
    hide Step;
    if n > 0 {
      QuietGrows(cfg, inps, if m < n then m else n - 1, n - 1);
      AnnouncementStep(cfg, Run(cfg, inps, n - 1), inps[n - 1]);
    }
  }

  /** Every announced scan is allowed and can start, and comes no earlier than the cooldown and the
      minimum interval after any announced before it. */
  lemma {:induction false} AnnouncementsAreSpaced(cfg: Config, inps: seq<Input>, i: nat, j: nat)
    requires cfg.Valid() && TimesAscend(inps) && i < j < |inps| && Announces(cfg, inps, i) && Announces(cfg, inps, j)
    ensures inps[j].now >= inps[i].now + cfg.cooldown && inps[j].now >= inps[i].now + cfg.minInterval
    ensures CanStart(cfg, inps[j])
    ensures IsAllowed(cfg, RequestOf(cfg, Run(cfg, inps, j).startupRequested, inps[j]), inps[j])
  {
    hide Step, CanStart, IsAllowed, RequestOf;
    QuietGrows(cfg, inps, i, i);
    QuietGrows(cfg, inps, i + 1, j);
    AnnouncementStep(cfg, Run(cfg, inps, i), inps[i]);
    AnnouncementStep(cfg, Run(cfg, inps, j), inps[j]);
  }

  // ----- startup requests that lead to a scan -----

  /** Update i announces a scan for a startup request. */
  ghost predicate AnnouncesStartup(cfg: Config, inps: seq<Input>, i: nat)
    requires i < |inps|
  {
    Announces(cfg, inps, i) && RequestOf(cfg, Run(cfg, inps, i).startupRequested, inps[i]) == Startup
  }

  /** The supervisor asks for a scan in every way. */
  function Asking(cfg: Config): Input { Calm(cfg, 0.0).(recommends := true, degraded := true, lost := true) }

  /** A robot that stands still and maps well, at a given time. */
  function Calm(cfg: Config, now: real): Input {
    Input(now, 0.0, 0.0, 0.0, true, Mapping, false, false, false, if cfg.minRoutes > 2 then cfg.minRoutes else 2,
          cfg.minValidRatio, false, false)
  }

  /** Something else asks first; then the robot maps calmly for the hold period. */
  function AskThenCalm(cfg: Config): seq<Input> { [Asking(cfg), Calm(cfg, cfg.hold), Calm(cfg, cfg.hold)] }

  /** A request of another kind that the configuration knows arms the manager. */
  predicate KnowsOthers(cfg: Config) { cfg.lostScan || cfg.degradedScan || cfg.lowQualityScan }

  /** Armed at time 0, not by a startup request, with no scan yet. */
  ghost predicate ArmedByOther(m: Manager) {
    m.state == Armed && m.requestStart == 0.0 && !m.startupRequested && m.lastScan < 0.0 && m.cooldownUntil < 0.0
  }

  lemma {:induction false} AskingArms(cfg: Config)
    requires cfg.Valid() && cfg.enabled && KnowsOthers(cfg)
    ensures ArmedByOther(Step(cfg, INIT_MANAGER, Asking(cfg)))
  {}

  lemma {:induction false} CalmAsksStartup(cfg: Config, now: real)
    requires cfg.startupScan && cfg.maxLinearSpeed >= 0.0
    ensures var inp := Calm(cfg, now);
            RequestOf(cfg, false, inp) == Startup && IsAllowed(cfg, Startup, inp) && CanStart(cfg, inp)
  {}

  lemma {:induction false} CalmContinues(cfg: Config, m: Manager)
    requires cfg.Valid() && cfg.enabled && cfg.startupScan
    requires ArmedByOther(m)
    ensures var p := Step(cfg, m, Calm(cfg, cfg.hold));
            && p.state == Pending && !p.startupRequested && Step(cfg, p, Calm(cfg, cfg.hold)).state == WouldScan
  {
    CalmAsksStartup(cfg, cfg.hold);
    hide RequestOf, IsAllowed, CanStart, IsRotating, Counted;
  }

  /** A startup request does lead to a scan when another request armed the manager before it. */
  lemma {:induction false} StartupScanHappens(cfg: Config)
    requires cfg.Valid() && cfg.enabled && cfg.startupScan && KnowsOthers(cfg)
    ensures TimesAscend(AskThenCalm(cfg)) && AnnouncesStartup(cfg, AskThenCalm(cfg), 2)
  {
    var inps := AskThenCalm(cfg);
    hide Step, RequestOf, Calm, Asking;
    AskingArms(cfg);
    CalmContinues(cfg, Step(cfg, INIT_MANAGER, Asking(cfg)));
    CalmAsksStartup(cfg, cfg.hold);
    assert Run(cfg, inps, 1) == Step(cfg, Run(cfg, inps, 0), inps[0]) && Run(cfg, inps, 0) == INIT_MANAGER;
    assert Run(cfg, inps, 2) == Step(cfg, Run(cfg, inps, 1), inps[1]);
    assert Run(cfg, inps, 3) == Step(cfg, Run(cfg, inps, 2), inps[2]);
    hide Run;
    TimesOfInputs(cfg);
  }

  lemma {:induction false} TimesOfInputs(cfg: Config)
    ensures Asking(cfg).now == 0.0 && Calm(cfg, cfg.hold).now == cfg.hold
  {}

  lemma {:induction false} DisabledStaysIdle(cfg: Config, inps: seq<Input>, n: nat)
    requires n <= |inps| && !cfg.enabled
    ensures Run(cfg, inps, n).state == Idle
  {
    if n > 0 {
      DisabledStaysIdle(cfg, inps, n - 1);
    }
  }

  /** Some run announces a scan for a startup request exactly when startup scans are on and so is at least one
      other kind of scan. */
  lemma {:induction false} StartupScansIff(cfg: Config)
    requires cfg.Valid()
    ensures (exists inps, i: nat :: TimesAscend(inps) && i < |inps| && AnnouncesStartup(cfg, inps, i))
            <==> cfg.enabled && cfg.startupScan && KnowsOthers(cfg)
  {
    hide TimesAscend, Run, Step;
    if cfg.enabled && cfg.startupScan && KnowsOthers(cfg) {
      StartupScanHappens(cfg);
      assert |AskThenCalm(cfg)| == 3;
    }
    forall inps, i: nat | i < |inps| && AnnouncesStartup(cfg, inps, i)
      ensures cfg.enabled && cfg.startupScan && KnowsOthers(cfg)
    {
      if !cfg.enabled {
        DisabledStaysIdle(cfg, inps, i + 1);
      } else if !KnowsOthers(cfg) {
        StartupAloneNeverScans(cfg, inps, i + 1);
      }
    }
  }
}
