/** The write-back chain as the application wires it: gate, write, feedback to the gate, validation
    (include/robot_slamd/app/app.hpp). */
module YawChain {
  import opened Angles
  import opened YawTypes
  import opened Localizer
  import G = YawGate
  import A = YawApply
  import P = PostApply

  datatype Configs = Configs(yaw: YawConfig, loc: LocConfig)
  {
    /** Both sections come from one configuration. */
    ghost predicate Valid() { yaw.Valid() && loc.Valid() && loc.maxWriteback == yaw.maxWriteback }
  }

  datatype Chain = Chain(gate: G.Gate, apply: A.Apply, h: Heading, post: P.Post)

  function InitChain(cfg: Configs): Chain {
    Chain(G.InitGate(cfg.yaw), A.INIT_APPLY, INIT_HEADING, P.InitPost(cfg.yaw))
  }

  /** What happens to the chain: an odometry step with whatever heading the sensors gave, or a match
      summary being presented, for the first time or again. */
  datatype Event = Odometry(fused: real, v: real, w: real) | Present(now: real, m: Match, env: Env)

  function GateInputOf(s: Chain, e: Event): GateInput
    requires e.Present?
  {
    GateInput(e.now, e.m, e.env, s.h.yaw, s.h.v, s.h.w)
  }

  /** The gate right after its update, before any feedback. */
  function GateAfter(cfg: Configs, s: Chain, e: Event): G.Gate
    requires cfg.Valid() && e.Present?
  {
    if cfg.yaw.GateEnabled() then G.GateStep(cfg.yaw, s.gate, GateInputOf(s, e)) else s.gate
  }

  function ApplyInputOf(h: Heading, snap: GateSnapshot, e: Event): A.ApplyInput
    requires e.Present?
  {
    A.ApplyInput(e.now, snap, h.yaw, h.v, h.w, e.env.supervisor,
                 A.LocalizationValidity(h, e.env, snap) == A.ValidLocalization)
  }

  function PostInputOf(snap: A.ApplySnapshot, gate: GateSnapshot, e: Event): P.PostInput
    requires e.Present?
  {
    P.PostInput(e.now, snap.applied, snap.scanId, snap.matchT, snap.delta, e.m, gate.candidate)
  }

  function PostAfter(cfg: Configs, p: P.Post, snap: A.ApplySnapshot, gate: GateSnapshot, e: Event): P.Post
    requires e.Present?
  {
    if cfg.yaw.postEnabled then P.PostStep(cfg.yaw, p, PostInputOf(snap, gate, e)) else p
  }

  function ApplyFromGate(cfg: Configs, s: Chain, e: Event): Chain
    requires e.Present?
  {
    if !cfg.yaw.WritebackOn() then s.(post := PostAfter(cfg, s.post, A.NO_APPLY, s.gate.latest, e))
    else
      var (a, h) := A.ApplyStep(cfg.yaw, cfg.loc, s.apply, s.h, ApplyInputOf(s.h, s.gate.latest, e));
      var g := if a.latest.applied
               then G.FeedbackStep(cfg.yaw, s.gate, e.now, a.latest.scanId, a.latest.matchT) else s.gate;
      Chain(g, a, h, PostAfter(cfg, s.post, a.latest, s.gate.latest, e))
  }

  function Step(cfg: Configs, s: Chain, e: Event): Chain
    requires cfg.Valid()
  {
    if e.Odometry? then s.(h := if s.h.have then MoveStep(s.h, e.fused, e.v, e.w) else s.h.(have := true))
    else if !cfg.yaw.GateEnabled() then s
    else ApplyFromGate(cfg, s.(gate := GateAfter(cfg, s, e)), e)
  }

  /** The state after a run. */
  function Run(cfg: Configs, evs: seq<Event>): Chain
    requires cfg.Valid()
  {
    if evs == [] then InitChain(cfg) else Step(cfg, Run(cfg, evs[..|evs| - 1]), evs[|evs| - 1])
  }

  // ----- with the whole localizer -----

  /** What reaches the chain from outside: a reading of encoders and gyro, or a match summary. */
  datatype Input = Sensors(ticks: Ticks, gyroZ: real, dt: real) | Summary(now: real, m: Match, env: Env)

  /** The chain and all fields of its localizer, which share the heading. */
  datatype Full = Full(chain: Chain, loc: Loc)

  function InitFull(cfg: Configs): Full { Full(InitChain(cfg), INIT_LOC) }

  function FullStep(cfg: Configs, f: Full, inp: Input): Full
    requires cfg.Valid()
  {
    match inp
    case Sensors(ticks, gyroZ, dt) =>
      var loc := OdometryStep(cfg.loc, f.loc, ticks, gyroZ, dt);
      Full(f.chain.(h := loc.h), loc)
    case Summary(now, m, env) =>
      var chain := Step(cfg, f.chain, Present(now, m, env));
      Full(chain, f.loc.(h := chain.h))
  }

  /** The events of the chain that an input amounts to: none for a reading that spans no time. */
  function EventsOf(cfg: Configs, loc: Loc, inp: Input): (es: seq<Event>)
    requires cfg.Valid()
    ensures |es| <= 1
  {
    match inp
    case Sensors(ticks, gyroZ, dt) =>
      var h := OdometryStep(cfg.loc, loc, ticks, gyroZ, dt).h;
      if loc.h.have && !(dt > 0.0) then [] else [Odometry(h.fused, h.v, h.w)]
    case Summary(now, m, env) => [Present(now, m, env)]
  }

  /** An input moves the chain as its events do. */
  lemma {:induction false} FullStepIsEvents(cfg: Configs, f: Full, inp: Input)
    requires cfg.Valid() && f.chain.h == f.loc.h
    ensures var n, es := FullStep(cfg, f, inp), EventsOf(cfg, f.loc, inp);
            n.chain.h == n.loc.h && n.chain == if es == [] then f.chain else Step(cfg, f.chain, es[0])
  {
    hide Wheels, Filter, Blend, Fuse, Turned, Rate, IsStationary, WrapPi, ApplyFromGate, GateAfter;
  }

  class YawCorrectionPipeline {
    const cfg: Configs
    const gate: G.YawCorrectionGate
    const apply: A.YawCorrectionApply
    const localizer: LocalizerObject
    const validator: P.YawCorrectionPostApplyValidator

    ghost function View(): Chain
      reads gate, apply, localizer, validator
    {
      Chain(gate.View(), apply.View(), localizer.h, validator.View())
    }

    ghost function FullView(): Full
      reads gate, apply, localizer, validator
    {
      Full(View(), localizer.View())
    }

    /** The objects share the configuration, and the gate's window has not outgrown its limit. */
    ghost predicate Valid()
      reads gate
    {
      && cfg.Valid()
      && gate.cfg == cfg.yaw && apply.cfg == cfg.yaw && localizer.cfg == cfg.loc && validator.cfg == cfg.yaw
      && |gate.window| <= cfg.yaw.window
    }

    constructor (cfg: Configs)
      requires cfg.Valid()
      ensures Valid() && this.cfg == cfg && FullView() == InitFull(cfg)
      ensures fresh(gate) && fresh(apply) && fresh(localizer) && fresh(validator)
    {
      this.cfg := cfg;
      gate := new G.YawCorrectionGate(cfg.yaw);
      apply := new A.YawCorrectionApply(cfg.yaw);
      localizer := new LocalizerObject(cfg.loc);
      validator := new P.YawCorrectionPostApplyValidator(cfg.yaw);
    }

    method UpdatePostApply(e: Event, snap: A.ApplySnapshot, gateSnap: GateSnapshot)
      requires Valid() && e.Present?
      modifies validator
      ensures validator.View() == PostAfter(cfg, old(validator.View()), snap, gateSnap, e)
    {
      hide P.PostStep;
      if !cfg.yaw.postEnabled {
        return;
      }
      validator.Update(PostInputOf(snap, gateSnap, e));
    }

    method UpdateApplyFromGate(e: Event, gateSnap: GateSnapshot)
      requires Valid() && e.Present? && gateSnap == gate.latest
      modifies gate, apply, localizer`h, validator
      ensures View() == ApplyFromGate(cfg, old(View()), e) && Valid()
    {
      hide PostAfter, A.ApplyStep, G.FeedbackStep, A.LocalizationValidity;
      if !cfg.yaw.WritebackOn() {
        UpdatePostApply(e, A.NO_APPLY, gateSnap);
        return;
      }
      apply.Update(localizer, ApplyInputOf(localizer.h, gateSnap, e));
      var snap := apply.latest;
      if snap.applied {
        gate.NotifyApplied(e.now, snap.scanId, snap.matchT);
        GateWindowAfterFeedback(cfg, old(gate.View()), e.now, snap.scanId, snap.matchT);
      }
      UpdatePostApply(e, snap, gateSnap);
    }

    /** One odometry update of the localizer that the chain reads and corrects. */
    method Move(ticks: Ticks, gyroZ: real, dt: real)
      requires Valid()
      modifies localizer
      ensures FullView() == FullStep(cfg, old(FullView()), Sensors(ticks, gyroZ, dt)) && Valid()
    {
      hide OdometryStep;
      localizer.Update(ticks, gyroZ, dt);
    }

    /** update_yaw_correction_gate_from_summary */
    method PresentSummary(e: Event)
      requires Valid() && e.Present?
      modifies gate, apply, localizer`h, validator
      ensures View() == Step(cfg, old(View()), e) && Valid()
      ensures FullView() == FullStep(cfg, old(FullView()), Summary(e.now, e.m, e.env))
    {
      hide G.GateStep, ApplyFromGate;
      if !cfg.yaw.GateEnabled() {
        return;
      }
      var inp := GateInput(e.now, e.m, e.env, localizer.h.yaw, localizer.h.v, localizer.h.w);
      GateWindowStaysShort(cfg, gate.View(), inp);
      gate.Update(inp);
      UpdateApplyFromGate(e, gate.latest);
    }
  }

  lemma {:induction false} GateWindowAfterFeedback(cfg: Configs, g: G.Gate, now: real, scanId: nat, matchT: real)
    ensures G.FeedbackStep(cfg.yaw, g, now, scanId, matchT).window == []
  {}

  lemma {:induction false} GateWindowStaysShort(cfg: Configs, g: G.Gate, inp: GateInput)
    requires cfg.Valid() && |g.window| <= cfg.yaw.window
    ensures |G.GateStep(cfg.yaw, g, inp).window| <= cfg.yaw.window
  {
    hide G.GateStep, G.WindowStep, G.Accepts, G.Decides, G.IsBacked;
    G.GateEffect(cfg.yaw, g, inp);
    assert |G.WindowStep(cfg.yaw, g.window, inp.m.delta)| <= cfg.yaw.window by {
      WindowIsShort(cfg.yaw, g.window, inp.m.delta);
    }
  }

  lemma {:induction false} WindowIsShort(cfg: YawConfig, w: seq<real>, delta: real)
    requires cfg.window >= 1
    ensures |G.WindowStep(cfg, w, delta)| <= cfg.window
  {}
}
