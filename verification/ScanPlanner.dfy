/** The planner that turns scan requests into rotation commands
    (include/robot_slamd/active_scan/active_scan_command_planner.hpp). */
module ScanPlanner {
  import opened Angles

  datatype State = Disabled | Idle | Precheck | Commanding | Verifying | Completed | Aborted | Cooldown | Blocked

  datatype Config = Config(
    enabled: bool, requireWouldStart: bool, requireRecommended: bool, requireLocalization: bool,
    maxLinearSpeed: real, minYawRate: real, maxYawRate: real, completeAngle: real,
    hold: real, timeout: real, cooldown: real)
  {
    /** What validate_config demands of the active_scan_execution section. */
    ghost predicate Valid() {
      0.0 <= hold && 0.0 <= timeout && 0.0 <= cooldown && 0.0 <= completeAngle && 0.0 <= minYawRate <= maxYawRate
    }
  }

  /** `typed` says that the request has a type other than NONE. */
  datatype Input = Input(now: real, yaw: real, linearSpeed: real, yawRate: real, localizationValid: bool,
                         recommended: bool, wouldStart: bool, typed: bool)

  datatype Stats = Stats(prechecks: nat, starts: nat, blocks: nat, completions: nat, aborts: nat)

  datatype Planner = Planner(state: State, precheckStart: real, commandStart: real, lastExecution: real,
                             cooldownUntil: real, lastYaw: real, observed: real, stats: Stats)

  // ----- pure parts -----

  predicate HasRequest(inp: Input) { inp.recommended || inp.typed }

  predicate CoolingDown(p: Planner, now: real) { p.cooldownUntil >= 0.0 && now < p.cooldownUntil }

  /** precheck_ready for an update outside the cooldown. */
  predicate Willing(cfg: Config, inp: Input) {
    && (cfg.requireWouldStart ==> inp.wouldStart) && (cfg.requireRecommended ==> inp.recommended)
    && (cfg.requireLocalization ==> inp.localizationValid) && Abs(inp.linearSpeed) <= cfg.maxLinearSpeed && inp.typed
  }

  predicate Ready(cfg: Config, p: Planner, inp: Input) { !CoolingDown(p, inp.now) && Willing(cfg, inp) }

  function YawRateDps(inp: Input): real { Rad2Deg(Abs(inp.yawRate)) }

  predicate MustAbort(cfg: Config, p: Planner, inp: Input) {
    var duration := if p.commandStart < 0.0 then 0.0 else inp.now - p.commandStart;
    || duration > cfg.timeout
    || (cfg.requireLocalization && !inp.localizationValid)
    || Abs(inp.linearSpeed) > cfg.maxLinearSpeed
    || YawRateDps(inp) > cfg.maxYawRate
    || !HasRequest(inp)
  }

  function Reset(p: Planner, yaw: real): Planner {
    p.(observed := 0.0, lastYaw := yaw, commandStart := -1.0, precheckStart := -1.0)
  }

  function Rotated(cfg: Config, p: Planner, inp: Input): (r: Planner)
    ensures r == p.(observed := r.observed, lastYaw := r.lastYaw)
  {
    if cfg.minYawRate <= YawRateDps(inp) <= cfg.maxYawRate then
      p.(observed := p.observed + Rad2Deg(Abs(WrapPi(inp.yaw - p.lastYaw))), lastYaw := inp.yaw)
    else p
  }

  // ----- one update -----

  /** The fields an update computes before it changes state, and the next state. */
  function Decide(cfg: Config, p: Planner, inp: Input): (Planner, State) {
    var ready := Ready(cfg, p, inp);
    match p.state
    case Disabled => (p, Idle)
    case Idle =>
      var q := Reset(p, inp.yaw);
      if ready then (q.(precheckStart := inp.now), Precheck) else (q, if HasRequest(inp) then Blocked else Idle)
    case Precheck =>
      if !HasRequest(inp) then (p, Idle)
      else if !ready then (p, Blocked)
      else if p.precheckStart >= 0.0 && inp.now - p.precheckStart >= cfg.hold then
        (Reset(p, inp.yaw).(commandStart := inp.now, lastExecution := inp.now), Commanding)
      else (p, Precheck)
    case Commanding => (p, if MustAbort(cfg, p, inp) then Aborted else Verifying)
    case Verifying =>
      if MustAbort(cfg, p, inp) then (p, Aborted)
      else
        var q := Rotated(cfg, p, inp);
        (q, if q.observed >= cfg.completeAngle then Completed else Verifying)
    case Completed | Aborted => (p.(cooldownUntil := inp.now + cfg.cooldown), Cooldown)
    case Cooldown => if CoolingDown(p, inp.now) then (p, Cooldown) else (Reset(p, inp.yaw), Idle)
    case Blocked =>
      if !HasRequest(inp) then (p, Idle) else if ready then (p.(precheckStart := inp.now), Precheck) else (p, Blocked)
  }

  function Counted(t: Stats, entered: State): Stats {
    match entered
    case Precheck => t.(prechecks := t.prechecks + 1)
    case Commanding => t.(starts := t.starts + 1)
    case Blocked => t.(blocks := t.blocks + 1)
    case Completed => t.(completions := t.completions + 1)
    case Aborted => t.(aborts := t.aborts + 1)
    case _ => t
  }

  function Entered(p: Planner, next: State): Planner {
    if next == p.state then p else p.(state := next, stats := Counted(p.stats, next))
  }

  function Step(cfg: Config, p: Planner, inp: Input): Planner {
    if !cfg.enabled then p.(state := Disabled)
    else
      var (q, next) := Decide(cfg, p, inp);
      Entered(q, next)
  }

  function InitPlanner(cfg: Config): Planner {
    Planner(if cfg.enabled then Idle else Disabled, -1.0, -1.0, -1.0, -1.0, 0.0, 0.0, Stats(0, 0, 0, 0, 0))
  }

  // ----- the object -----

  class ActiveScanCommandPlanner {
    const cfg: Config
    var state: State
    var precheckStart: real
    var commandStart: real
    var lastExecution: real
    var cooldownUntil: real
    var lastYaw: real
    var observed: real
    var stats: Stats

    function View(): Planner
      reads this
    {
      Planner(state, precheckStart, commandStart, lastExecution, cooldownUntil, lastYaw, observed, stats)
    }

    constructor (cfg: Config)
      ensures this.cfg == cfg && View() == InitPlanner(cfg)
    {
      this.cfg := cfg;
      state := if cfg.enabled then Idle else Disabled;
      precheckStart, commandStart, lastExecution, cooldownUntil := -1.0, -1.0, -1.0, -1.0;
      lastYaw, observed, stats := 0.0, 0.0, Stats(0, 0, 0, 0, 0);
    }

    method ResetExecution(yaw: real)
      modifies this`observed, this`lastYaw, this`commandStart, this`precheckStart
      ensures View() == Reset(old(View()), yaw)
    {
      observed, lastYaw, commandStart, precheckStart := 0.0, yaw, -1.0, -1.0;
    }

    method AccumulateYawIfValid(inp: Input)
      modifies this`observed, this`lastYaw
      ensures View() == Rotated(cfg, old(View()), inp)
    {
      hide WrapPi, Abs, Rad2Deg;
      var rate := YawRateDps(inp);
      if cfg.minYawRate <= rate && rate <= cfg.maxYawRate {
        observed := observed + Rad2Deg(Abs(WrapPi(inp.yaw - lastYaw)));
        lastYaw := inp.yaw;
      }
    }

    method TransitionTo(next: State)
      requires next != state
      modifies this`state, this`stats
      ensures View() == Entered(old(View()), next)
    {
      state := next;
      if state == Precheck { stats := stats.(prechecks := stats.prechecks + 1); }
      if state == Commanding { stats := stats.(starts := stats.starts + 1); }
      if state == Blocked { stats := stats.(blocks := stats.blocks + 1); }
      if state == Completed { stats := stats.(completions := stats.completions + 1); }
      if state == Aborted { stats := stats.(aborts := stats.aborts + 1); }
    }

    method NextState(inp: Input) returns (next: State)
      modifies this`precheckStart, this`commandStart, this`lastExecution, this`cooldownUntil, this`lastYaw,
               this`observed
      ensures (View(), next) == Decide(cfg, old(View()), inp)
    {
      hide Rotated, MustAbort, HasRequest, Willing;
      var request := HasRequest(inp);
      var cooldownActive := CoolingDown(View(), inp.now);
      var ready := Ready(cfg, View(), inp);
      next := state;
      match state {
        case Disabled => next := Idle;
        case Idle =>
          ResetExecution(inp.yaw);
          if ready {
            next := Precheck;
            precheckStart := inp.now;
          } else if request {
            next := Blocked;
          }
        case Precheck =>
          if !request {
            next := Idle;
          } else if !ready {
            next := Blocked;
          } else if precheckStart >= 0.0 && inp.now - precheckStart >= cfg.hold {
            next := Commanding;
            ResetExecution(inp.yaw);
            commandStart := inp.now;
            lastExecution := inp.now;
          }
        case Commanding =>
          var abort := MustAbort(cfg, View(), inp);
          next := if abort then Aborted else Verifying;
        case Verifying =>
          var abort := MustAbort(cfg, View(), inp);
          if abort {
            next := Aborted;
          } else {
            AccumulateYawIfValid(inp);
            if observed >= cfg.completeAngle { next := Completed; }
          }
        case Completed =>
          next := Cooldown;
          cooldownUntil := inp.now + cfg.cooldown;
        case Aborted =>
          next := Cooldown;
          cooldownUntil := inp.now + cfg.cooldown;
        case Cooldown =>
          if !cooldownActive {
            next := Idle;
            ResetExecution(inp.yaw);
          }
        case Blocked =>
          if !request {
            next := Idle;
          } else if ready {
            next := Precheck;
            precheckStart := inp.now;
          }
      }
    }

    method Update(inp: Input)
      modifies this
      ensures View() == Step(cfg, old(View()), inp)
    {
      hide Decide, Counted;
      if !cfg.enabled {
        state := Disabled;
        return;
      }
      var next := NextState(inp);
      if next != state {
        TransitionTo(next);
      }
    }
  }

  // ----- runs -----

  function Run(cfg: Config, inps: seq<Input>, n: nat): Planner
    requires n <= |inps|
  {
    if n == 0 then InitPlanner(cfg) else Step(cfg, Run(cfg, inps, n - 1), inps[n - 1])
  }

  ghost predicate TimesAscend(inps: seq<Input>) {
    && (forall i :: 0 <= i < |inps| ==> inps[i].now >= 0.0)
    && forall i, j :: 0 <= i <= j < |inps| ==> inps[i].now <= inps[j].now
  }

  /** Every start is either still running or has ended exactly once, as completed or as aborted. */
  lemma {:induction false} StartsAreAccounted(cfg: Config, inps: seq<Input>, n: nat)
    requires n <= |inps|
    ensures var p := Run(cfg, inps, n);
            && p.stats.starts == p.stats.completions + p.stats.aborts
                                 + (if p.state == Commanding || p.state == Verifying then 1 else 0)
            && (!cfg.enabled ==> p.state == Disabled)
  {
    hide Ready, MustAbort, Rotated, HasRequest;
    if n > 0 {
      StartsAreAccounted(cfg, inps, n - 1);
    }
  }

  /** Update i (counted from 0) starts a rotation. */
  ghost predicate Starts(cfg: Config, inps: seq<Input>, i: nat)
    requires i < |inps|
  {
    Run(cfg, inps, i).state == Precheck && Run(cfg, inps, i + 1).state == Commanding
  }

  /** Update i ends a rotation. */
  ghost predicate Ends(cfg: Config, inps: seq<Input>, i: nat)
    requires i < |inps|
  {
    var before, after := Run(cfg, inps, i).state, Run(cfg, inps, i + 1).state;
    before != after && (after == Completed || after == Aborted)
  }

  /** Update j found the planner ready and left it in Precheck. */
  ghost predicate Holds(cfg: Config, inps: seq<Input>, j: nat)
    requires j < |inps|
  {
    Ready(cfg, Run(cfg, inps, j), inps[j]) && Run(cfg, inps, j + 1).state == Precheck
  }

  ghost predicate HeldSince(cfg: Config, inps: seq<Input>, k: nat, n: nat)
    requires n <= |inps|
  {
    k < n && forall j: nat :: k <= j < n ==> Holds(cfg, inps, j)
  }

  lemma {:induction false} PrecheckStep(cfg: Config, p: Planner, inp: Input)
    ensures var q := Step(cfg, p, inp);
            && (q.state == Precheck ==>
                  Ready(cfg, p, inp) && q.precheckStart == if p.state == Precheck then p.precheckStart else inp.now)
            && (p.state == Precheck && q.state == Commanding ==>
                  Ready(cfg, p, inp) && inp.now - p.precheckStart >= cfg.hold)
  {
    hide Ready, MustAbort, Rotated, HasRequest;
  }

  lemma {:induction false} PrecheckIsHeld(cfg: Config, inps: seq<Input>, n: nat) returns (k: nat)
    requires 0 < n <= |inps| && Run(cfg, inps, n).state == Precheck
    ensures HeldSince(cfg, inps, k, n) && inps[k].now == Run(cfg, inps, n).precheckStart
  {
    hide Step;
    var before := Run(cfg, inps, n - 1);
    PrecheckStep(cfg, before, inps[n - 1]);
    assert Holds(cfg, inps, n - 1) by {
      assert Run(cfg, inps, n) == Step(cfg, before, inps[n - 1]);
    }
    if before.state == Precheck && n > 1 {
      k := PrecheckIsHeld(cfg, inps, n - 1);
      hide Holds;
    } else {
      assert n == 1 ==> before == InitPlanner(cfg);
      k := n - 1;
    }
  }

  /** The hold period before a start at update n: it began at update k, and every update since then,
      n included, found the planner ready. */
  ghost predicate HoldBefore(cfg: Config, inps: seq<Input>, k: nat, n: nat)
    requires k < n < |inps|
  {
    HeldSince(cfg, inps, k, n) && Ready(cfg, Run(cfg, inps, n), inps[n]) && inps[n].now - inps[k].now >= cfg.hold
  }

  /** No rotation starts unless the planner was ready at every update of a whole hold period. */
  lemma {:induction false} StartIsHeld(cfg: Config, inps: seq<Input>, n: nat)
    requires n < |inps| && Starts(cfg, inps, n)
    ensures exists k: nat :: k < n && HoldBefore(cfg, inps, k, n)
  {
    hide Step, Ready, HeldSince;
    assert n > 0 by {
      assert Run(cfg, inps, 0) == InitPlanner(cfg);
    }
    var k := PrecheckIsHeld(cfg, inps, n);
    PrecheckStep(cfg, Run(cfg, inps, n), inps[n]);
    HoldsAt(cfg, inps, k, n, k);
    assert HoldBefore(cfg, inps, k, n);
  }

  lemma {:induction false} HoldsAt(cfg: Config, inps: seq<Input>, k: nat, n: nat, j: nat)
    requires n <= |inps| && HeldSince(cfg, inps, k, n) && k <= j
    ensures k < n && (j < n ==> Ready(cfg, Run(cfg, inps, j), inps[j]) && Run(cfg, inps, j + 1).state == Precheck)
  {
    assert j < n ==> Holds(cfg, inps, j);
  }

  lemma {:induction false} CooldownStep(cfg: Config, p: Planner, inp: Input)
    ensures var until := Step(cfg, p, inp).cooldownUntil;
            until == p.cooldownUntil || until == inp.now + cfg.cooldown
  {
    hide Ready, MustAbort, Rotated, HasRequest, Counted, CoolingDown;
  }

  lemma {:induction false} CooldownOnlyGrows(cfg: Config, inps: seq<Input>, m: nat, n: nat)
    requires cfg.Valid() && TimesAscend(inps) && m <= n <= |inps|
    ensures Run(cfg, inps, m).cooldownUntil <= Run(cfg, inps, n).cooldownUntil
    ensures Run(cfg, inps, n).cooldownUntil <= if n == 0 then -1.0 else inps[n - 1].now + cfg.cooldown
    decreases n
  {
    hide Step;
    if n > 0 {
      CooldownOnlyGrows(cfg, inps, if m < n then m else n - 1, n - 1);
      CooldownStep(cfg, Run(cfg, inps, n - 1), inps[n - 1]);
    }
  }

  /** A rotation starts no earlier than cooldown plus hold after any earlier one ended. */
  lemma {:induction false} StartsAreSpaced(cfg: Config, inps: seq<Input>, e: nat, n: nat)
    requires cfg.Valid() && TimesAscend(inps) && e < n < |inps| && Ends(cfg, inps, e) && Starts(cfg, inps, n)
    ensures inps[n].now >= inps[e].now + cfg.cooldown + cfg.hold
  {
    hide Run, Willing, HeldSince;
    StartIsHeld(cfg, inps, n);
    var k: nat :| k < n && HoldBefore(cfg, inps, k, n);
    EndsBeforeHold(cfg, inps, e, k, n);
    HoldsAt(cfg, inps, k, n, k);
    CooldownAfterEnd(cfg, inps, e);
    CooldownOnlyGrows(cfg, inps, e + 2, k);
  }

  lemma {:induction false} EndsBeforeHold(cfg: Config, inps: seq<Input>, e: nat, k: nat, n: nat)
    requires e < n < |inps| && Ends(cfg, inps, e) && HeldSince(cfg, inps, k, n)
    ensures e + 2 <= k
  {
    hide Run, Ready;
    CooldownAfterEnd(cfg, inps, e);
    if k <= e {
      HoldsAt(cfg, inps, k, n, e);
    } else if k == e + 1 {
      HoldsAt(cfg, inps, k, n, k);
    }
  }

  lemma {:induction false} CooldownAfterEnd(cfg: Config, inps: seq<Input>, e: nat)
    requires e + 1 < |inps| && Ends(cfg, inps, e)
    ensures var p := Run(cfg, inps, e + 2);
            p.state == Cooldown && p.cooldownUntil == inps[e + 1].now + cfg.cooldown
  {
    hide MustAbort, Rotated, HasRequest, Ready;
    var p := Run(cfg, inps, e + 1);
    assert p == Step(cfg, Run(cfg, inps, e), inps[e]);
    assert Run(cfg, inps, e + 2) == Step(cfg, p, inps[e + 1]);
  }
}
