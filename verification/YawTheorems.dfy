/** What the write-back chain keeps over every run of odometry steps and presented summaries. */
module YawTheorems {
  import opened Angles
  import opened YawTypes
  import opened Localizer
  import opened YawChain
  import G = YawGate
  import A = YawApply
  import P = PostApply

  /** The event makes a write: the apply stage is called and accepts. */
  predicate Writes(cfg: Configs, s: Chain, e: Event)
    requires cfg.Valid()
  {
    e.Present? && cfg.yaw.GateEnabled() && cfg.yaw.WritebackOn() && Step(cfg, s, e).apply.latest.applied
  }

  // ----- invariants of the state -----

  ghost predicate Inv(cfg: Configs, s: Chain) {
    && A.Accounts(s.apply) && HeadingConsistent(s.h)
    && s.h.applyCount == s.apply.count <= cfg.yaw.maxCount
    && s.h.totalAbsDeg == s.apply.total && 0.0 <= s.apply.total <= cfg.yaw.maxTotal
    && Abs(s.h.offset) <= Deg2Rad(s.apply.total)
    && |s.gate.window| <= cfg.yaw.window
  }

  /** What one event does to the parts the theorems speak of. */
  ghost predicate StepEffect(cfg: Configs, s: Chain, e: Event, n: Chain)
    requires cfg.Valid()
  {
    if e.Odometry? then n.gate == s.gate && n.apply == s.apply && n.post == s.post
    else
      var g := GateAfter(cfg, s, e);
      if Writes(cfg, s, e) then
        && A.Wrote(cfg.yaw, s.apply, s.h, ApplyInputOf(s.h, g.latest, e), n.apply, n.h)
        && n.gate == G.FeedbackStep(cfg.yaw, g, e.now, n.apply.latest.scanId, n.apply.latest.matchT)
      else
        && n.h == s.h && n.gate == g && n.apply.count == s.apply.count && n.apply.total == s.apply.total
        && n.apply.lastApply == s.apply.lastApply
  }

  lemma {:induction false} StepHasEffect(cfg: Configs, s: Chain, e: Event)
    requires cfg.Valid() && Inv(cfg, s)
    ensures StepEffect(cfg, s, e, Step(cfg, s, e)) && A.Accounts(Step(cfg, s, e).apply)
    ensures |Step(cfg, s, e).gate.window| <= cfg.yaw.window
  {
    hide G.GateStep, A.ApplyStep, P.PostStep, A.LocalizationValidity, HeadingConsistent, A.Accounts, A.Wrote;
    if e.Present? && cfg.yaw.GateEnabled() {
      GateWindowStaysShort(cfg, s.gate, GateInputOf(s, e));
      A.ApplyEffect(cfg.yaw, cfg.loc, s.apply, s.h, ApplyInputOf(s.h, GateAfter(cfg, s, e).latest, e));
    }
  }

  lemma {:induction false} StepKeepsInv(cfg: Configs, s: Chain, e: Event)
    requires cfg.Valid() && Inv(cfg, s)
    ensures Inv(cfg, Step(cfg, s, e))
  {
    var n := Step(cfg, s, e);
    StepHasEffect(cfg, s, e);
    if e.Odometry? {
      MoveKeepsHeading(s.h, e.fused, e.v, e.w);
    } else if Writes(cfg, s, e) {
      var d := n.apply.latest.delta;
      CorrectionKeepsHeading(s.h, Deg2Rad(d));
      A.DegreesAndRadians(d, 0.0);
    }
    hide GateAfter, ApplyFromGate, G.GateStep, WrapPi, Congruent, A.Attempts, A.IsTooSoon;
  }

  lemma {:induction false} FreshHasInv(cfg: Configs, s: Chain)
    requires cfg.Valid() && A.Accounts(s.apply) && HeadingConsistent(s.h) && s.gate.window == []
    requires s.h.applyCount == s.apply.count == 0 && s.h.totalAbsDeg == s.apply.total == s.h.offset == 0.0
    ensures Inv(cfg, s)
  {}

  lemma {:induction false} InitHasInv(cfg: Configs)
    requires cfg.Valid()
    ensures Inv(cfg, InitChain(cfg))
  {
    hide HeadingConsistent, Inv;
    InitIsConsistent();
    FreshHasInv(cfg, InitChain(cfg));
  }

  lemma {:induction false} RunHasInv(cfg: Configs, evs: seq<Event>)
    requires cfg.Valid()
    ensures Inv(cfg, Run(cfg, evs))
  {
    if evs == [] {
      InitHasInv(cfg);
    } else {
      RunHasInv(cfg, evs[..|evs| - 1]);
      StepKeepsInv(cfg, Run(cfg, evs[..|evs| - 1]), evs[|evs| - 1]);
    }
  }

  // ----- the written heading stays near pure odometry -----

  /** Degrees written so far, with their signs. */
  ghost function Written(cfg: Configs, evs: seq<Event>): real
    requires cfg.Valid()
  {
    if evs == [] then 0.0
    else
      var before, e := evs[..|evs| - 1], evs[|evs| - 1];
      var s := Run(cfg, before);
      Written(cfg, before) + (if Writes(cfg, s, e) then Step(cfg, s, e).apply.latest.delta else 0.0)
  }

  /** After any run the published heading is the pure odometry heading plus an offset, up to whole turns.
      The offset is the sum of all writes, up to whole turns. Its size never exceeds the total the
      session spent, which never exceeds the configured limit, so neither does the angle between the
      published heading and pure odometry. The localizer and the session agree on number and total. */
  lemma {:induction false} HeadingStaysNearOdometry(cfg: Configs, evs: seq<Event>)
    requires cfg.Valid()
    ensures var s := Run(cfg, evs);
            && -PI <= s.h.yaw <= PI && Congruent(s.h.yaw, s.h.fused + s.h.offset)
            && Congruent(s.h.offset, Deg2Rad(Written(cfg, evs)))
            && Abs(s.h.offset) <= Deg2Rad(s.apply.total) <= Deg2Rad(cfg.yaw.maxTotal)
            && Abs(WrapPi(s.h.yaw - s.h.fused)) <= Deg2Rad(cfg.yaw.maxTotal)
            && s.h.totalAbsDeg == s.apply.total && s.h.applyCount == s.apply.count <= cfg.yaw.maxCount
  {
    hide *;
    RunHasInv(cfg, evs);
    OffsetIsSum(cfg, evs);
    HeadingOfState(cfg, Run(cfg, evs));
  }

  lemma {:induction false} HeadingOfState(cfg: Configs, s: Chain)
    requires cfg.Valid() && Inv(cfg, s)
    ensures -PI <= s.h.yaw <= PI && Congruent(s.h.yaw, s.h.fused + s.h.offset)
    ensures Abs(s.h.offset) <= Deg2Rad(s.apply.total) <= Deg2Rad(cfg.yaw.maxTotal)
    ensures Abs(WrapPi(s.h.yaw - s.h.fused)) <= Deg2Rad(cfg.yaw.maxTotal)
    ensures s.h.totalAbsDeg == s.apply.total && s.h.applyCount == s.apply.count <= cfg.yaw.maxCount
  {
    hide WrapPi, Congruent, Abs, A.Accounts;
    AngleToOffset(s.h);
  }

  lemma {:induction false} AngleToOffset(h: Heading)
    requires Congruent(h.yaw, h.fused + h.offset)
    ensures Abs(WrapPi(h.yaw - h.fused)) <= Abs(h.offset)
  {
    CongruentRefl(-h.fused);
    CongruentAdd(h.yaw, h.fused + h.offset, -h.fused, -h.fused);
    WrapIsShortest(h.yaw - h.fused, h.offset);
  }

  lemma {:induction false} OffsetIsSum(cfg: Configs, evs: seq<Event>)
    requires cfg.Valid()
    ensures Congruent(Run(cfg, evs).h.offset, Deg2Rad(Written(cfg, evs)))
  {
    if evs == [] {
      CongruentRefl(0.0);
      assert INIT_HEADING.offset == 0.0;
    } else {
      var before, e := evs[..|evs| - 1], evs[|evs| - 1];
      var s := Run(cfg, before);
      OffsetIsSum(cfg, before);
      RunHasInv(cfg, before);
      StepHasEffect(cfg, s, e);
      OffsetStep(cfg, s, e, Written(cfg, before));
    }
  }

  lemma {:induction false} OffsetStep(cfg: Configs, s: Chain, e: Event, sum: real)
    requires cfg.Valid() && Inv(cfg, s) && Congruent(s.h.offset, Deg2Rad(sum))
    ensures var n := Step(cfg, s, e);
            Congruent(n.h.offset, Deg2Rad(sum + (if Writes(cfg, s, e) then n.apply.latest.delta else 0.0)))
  {
    var n := Step(cfg, s, e);
    StepHasEffect(cfg, s, e);
    if Writes(cfg, s, e) {
      var d := n.apply.latest.delta;
      CorrectionKeepsHeading(s.h, Deg2Rad(d));
      CongruentRefl(Deg2Rad(d));
      CongruentAdd(s.h.offset, Deg2Rad(sum), Deg2Rad(d), Deg2Rad(d));
      CongruentTrans(n.h.offset, s.h.offset + Deg2Rad(d), Deg2Rad(sum + d));
    }
    hide GateAfter, ApplyFromGate, G.GateStep, WrapPi, Congruent, A.Attempts, A.IsTooSoon;
  }

  /** In the application the localizer never refuses a write that the apply stage let through. */
  lemma {:induction false} LocalizerNeverRefuses(cfg: Configs, evs: seq<Event>)
    requires cfg.Valid()
    ensures Run(cfg, evs).apply.latest.reason != A.LocalizerRejected
  {
    if evs == [] {
      assert A.INIT_APPLY.latest.reason == A.NoReason;
    } else {
      var before, e := evs[..|evs| - 1], evs[|evs| - 1];
      LocalizerNeverRefuses(cfg, before);
      StepIsNotRefused(cfg, Run(cfg, before), e);
    }
  }

  lemma {:induction false} StepIsNotRefused(cfg: Configs, s: Chain, e: Event)
    requires cfg.Valid() && s.apply.latest.reason != A.LocalizerRejected
    ensures Step(cfg, s, e).apply.latest.reason != A.LocalizerRejected
  {
    hide G.GateStep, A.ApplyStep, P.PostStep, A.IsDuplicate;
    if e.Present? && cfg.yaw.GateEnabled() {
      A.LocalizerRefusesIff(cfg.yaw, cfg.loc, s.apply, s.h, ApplyInputOf(s.h, GateAfter(cfg, s, e).latest, e));
    }
  }

  // ----- every write that turns the heading is backed -----

  /** Candidates that passed the prechecks since the last write. */
  ghost function Accepted(cfg: Configs, evs: seq<Event>): seq<real>
    requires cfg.Valid()
  {
    if evs == [] then []
    else
      var before, e := evs[..|evs| - 1], evs[|evs| - 1];
      var s := Run(cfg, before);
      if Writes(cfg, s, e) then []
      else if e.Present? && G.Accepts(cfg.yaw, s.gate, GateInputOf(s, e)) then Accepted(cfg, before) + [e.m.delta]
      else Accepted(cfg, before)
  }

  /** The gate's window is the last N candidates accepted since the last write. Rejections do not empty it. */
  lemma {:induction false} WindowIsRecent(cfg: Configs, evs: seq<Event>)
    requires cfg.Valid()
    ensures Run(cfg, evs).gate.window == LastN(Accepted(cfg, evs), cfg.yaw.window)
  {
    if evs != [] {
      var before, e := evs[..|evs| - 1], evs[|evs| - 1];
      var s := Run(cfg, before);
      WindowIsRecent(cfg, before);
      RunHasInv(cfg, before);
      WindowStepEffect(cfg, s, e);
      if e.Present? {
        LastNSnoc(Accepted(cfg, before), e.m.delta, cfg.yaw.window);
      }
    }
  }

  lemma {:induction false} LastNSnoc(s: seq<real>, x: real, n: nat)
    requires n >= 1
    ensures LastN(LastN(s, n) + [x], n) == LastN(s + [x], n)
  {}

  lemma {:induction false} WindowStepEffect(cfg: Configs, s: Chain, e: Event)
    requires cfg.Valid() && Inv(cfg, s)
    ensures Step(cfg, s, e).gate.window
         == if Writes(cfg, s, e) then []
            else if e.Present? && G.Accepts(cfg.yaw, s.gate, GateInputOf(s, e))
            then G.WindowStep(cfg.yaw, s.gate.window, e.m.delta)
            else s.gate.window
  {
    StepHasEffect(cfg, s, e);
    if e.Present? {
      G.GateEffect(cfg.yaw, s.gate, GateInputOf(s, e));
    }
    hide Step, G.GateStep, A.Wrote, G.WindowStep, G.IsBacked, G.Precheck, G.Decides;
  }

  /** The gate suggests a correction, which in writeback mode may be written and in dry-run mode is only reported. */
  predicate Suggests(cfg: Configs, s: Chain, e: Event)
    requires cfg.Valid()
  {
    e.Present? && cfg.yaw.GateEnabled() && GateAfter(cfg, s, e).latest.wouldApply
  }

  lemma {:induction false} SuggestionIsBacked(cfg: Configs, s: Chain, e: Event)
    requires cfg.Valid() && Inv(cfg, s) && Suggests(cfg, s, e)
    ensures var g := GateAfter(cfg, s, e);
            && g.window == G.WindowStep(cfg.yaw, s.gate.window, e.m.delta)
            && G.IsBacked(cfg.yaw, g.window, g.latest, e.m.delta)
  {
    hide G.GateStep, G.IsBacked, G.WindowStep, G.Accepts, G.Decides, HeadingConsistent, A.Accounts;
    G.GateEffect(cfg.yaw, s.gate, GateInputOf(s, e));
  }

  lemma {:induction false} WindowOfRun(cfg: Configs, evs: seq<Event>, delta: real)
    requires cfg.Valid()
    ensures G.WindowStep(cfg.yaw, Run(cfg, evs).gate.window, delta)
            == LastN(Accepted(cfg, evs) + [delta], cfg.yaw.window)
  {
    hide Run, Accepted, LastN;
    WindowIsRecent(cfg, evs);
    LastNSnoc(Accepted(cfg, evs), delta, cfg.yaw.window);
  }

  /** Behind every suggestion stand exactly the last N candidates accepted since the last write, the newest
      included: all of one sign, spread within the limit, and the suggestion has their sign and is no larger
      than the newest candidate or the step limit. */
  lemma {:induction false} EverySuggestionIsBacked(cfg: Configs, evs: seq<Event>, e: Event)
    requires cfg.Valid() && Suggests(cfg, Run(cfg, evs), e)
    ensures var g := GateAfter(cfg, Run(cfg, evs), e);
            && g.window == LastN(Accepted(cfg, evs) + [e.m.delta], cfg.yaw.window)
            && G.IsBacked(cfg.yaw, g.window, g.latest, e.m.delta)
  {
    assert e.Present?;
    hide *;
    RunHasInv(cfg, evs);
    SuggestionIsBacked(cfg, Run(cfg, evs), e);
    WindowOfRun(cfg, evs, e.m.delta);
  }

  lemma {:induction false} TurnRepeatsSuggestion(cfg: Configs, s: Chain, e: Event)
    requires cfg.Valid() && Inv(cfg, s) && Writes(cfg, s, e) && Step(cfg, s, e).apply.latest.delta != 0.0
    ensures Suggests(cfg, s, e) && GateAfter(cfg, s, e).latest.suggested == Step(cfg, s, e).apply.latest.delta
  {
    hide Step, G.GateStep, G.IsBacked, G.WindowStep, G.Accepts, G.Decides, HeadingConsistent, A.Accounts;
    assert e.Present? && cfg.yaw.GateEnabled();
    StepHasEffect(cfg, s, e);
    G.GateEffect(cfg.yaw, s.gate, GateInputOf(s, e));
  }

  /** A write that turns the heading repeats a suggestion of the gate made in the same event, so it is
      backed in the same way. This holds whatever the require_* switches say. */
  lemma {:induction false} EveryTurnIsBacked(cfg: Configs, evs: seq<Event>, e: Event)
    requires cfg.Valid() && Writes(cfg, Run(cfg, evs), e)
    requires Step(cfg, Run(cfg, evs), e).apply.latest.delta != 0.0
    ensures var s := Run(cfg, evs);
            var g := GateAfter(cfg, s, e);
            && g.latest.wouldApply && g.latest.suggested == Step(cfg, s, e).apply.latest.delta
            && g.window == LastN(Accepted(cfg, evs) + [e.m.delta], cfg.yaw.window)
            && G.IsBacked(cfg.yaw, g.window, g.latest, e.m.delta)
  {
    hide Inv, Run, Writes, Step, GateAfter, Accepted, LastN, G.IsBacked;
    RunHasInv(cfg, evs);
    TurnRepeatsSuggestion(cfg, Run(cfg, evs), e);
    EverySuggestionIsBacked(cfg, evs, e);
  }

  // ----- spacing in time, and once per summary -----

  /** Timestamps are not negative and never go back. */
  ghost predicate Ordered(evs: seq<Event>) {
    && (forall i :: 0 <= i < |evs| && evs[i].Present? ==> evs[i].now >= 0.0)
    && (forall i, j :: 0 <= i < j < |evs| && evs[i].Present? && evs[j].Present? ==> evs[i].now <= evs[j].now)
  }

  /** Summaries come in order of their scan, and presenting one again presents the same one. */
  ghost predicate Stuttering(evs: seq<Event>) {
    forall i, j :: 0 <= i < j < |evs| && evs[i].Present? && evs[j].Present? ==>
      evs[i].m.scanId <= evs[j].m.scanId && (evs[i].m.scanId == evs[j].m.scanId ==> evs[i].m.t == evs[j].m.t)
  }

  function Before(cfg: Configs, evs: seq<Event>, i: nat): Chain
    requires cfg.Valid() && i < |evs|
  {
    Run(cfg, evs[..i])
  }

  predicate DecidesAt(cfg: Configs, evs: seq<Event>, i: nat)
    requires cfg.Valid() && i < |evs|
  {
    evs[i].Present? && G.Decides(cfg.yaw, Before(cfg, evs, i).gate, GateInputOf(Before(cfg, evs, i), evs[i]))
  }

  predicate WritesAt(cfg: Configs, evs: seq<Event>, i: nat)
    requires cfg.Valid() && i < |evs|
  {
    Writes(cfg, Before(cfg, evs, i), evs[i])
  }

  /** The gate reports the summary of event i: as a candidate, a suggestion or a rejection. */
  predicate ReportsAt(cfg: Configs, evs: seq<Event>, i: nat)
    requires cfg.Valid() && i < |evs|
  {
    evs[i].Present? && cfg.yaw.GateEnabled() && GateAfter(cfg, Before(cfg, evs, i), evs[i]).latest.HasCandidate()
  }

  lemma RunStep(cfg: Configs, evs: seq<Event>, n: nat)
    requires cfg.Valid() && n < |evs|
    ensures Run(cfg, evs[..n + 1]) == Step(cfg, Before(cfg, evs, n), evs[n])
  {
    assert evs[..n + 1][..n] == evs[..n];
  }

  /** After a decision the cooldown lasts at least its full length from that moment on. */
  lemma {:induction false} CooldownHolds(cfg: Configs, evs: seq<Event>, i: nat, n: nat)
    requires cfg.Valid() && Ordered(evs) && i < n <= |evs| && DecidesAt(cfg, evs, i)
    ensures Run(cfg, evs[..n]).gate.cooldownUntil >= evs[i].now + cfg.yaw.cooldown
  {
    hide Run, Step, G.Decides, G.GateStep, GateAfter, Inv;
    RunStep(cfg, evs, n - 1);
    RunHasInv(cfg, evs[..n - 1]);
    if i < n - 1 {
      CooldownHolds(cfg, evs, i, n - 1);
    }
    CooldownStep(cfg, Before(cfg, evs, n - 1), evs[n - 1]);
  }

  lemma {:induction false} CooldownStep(cfg: Configs, s: Chain, e: Event)
    requires cfg.Valid() && Inv(cfg, s)
    ensures var until := Step(cfg, s, e).gate.cooldownUntil;
            if e.Present? && G.Decides(cfg.yaw, s.gate, GateInputOf(s, e)) then until >= e.now + cfg.yaw.cooldown
            else until >= s.gate.cooldownUntil
  {
    StepHasEffect(cfg, s, e);
    if e.Present? {
      G.GateEffect(cfg.yaw, s.gate, GateInputOf(s, e));
    }
    hide Step, G.GateStep, A.Wrote, G.WindowStep, G.IsBacked, G.Precheck, G.Accepts;
  }

  /** Any two decisions of the gate are at least one cooldown apart. */
  lemma {:induction false} DecisionsAreSpaced(cfg: Configs, evs: seq<Event>, i: nat, j: nat)
    requires cfg.Valid() && Ordered(evs) && i < j < |evs|
    ensures DecidesAt(cfg, evs, i) && DecidesAt(cfg, evs, j) ==> evs[j].now - evs[i].now >= cfg.yaw.cooldown
  {
    if DecidesAt(cfg, evs, i) && DecidesAt(cfg, evs, j) {
      CooldownHolds(cfg, evs, i, j);
    }
    hide Run, G.GateStep, G.Precheck;
  }

  lemma {:induction false} LastApplyStep(cfg: Configs, s: Chain, e: Event)
    requires cfg.Valid() && Inv(cfg, s)
    ensures Step(cfg, s, e).apply.lastApply == if Writes(cfg, s, e) then e.now else s.apply.lastApply
  {
    StepHasEffect(cfg, s, e);
    hide Step, GateAfter, Inv, A.Accounts, G.GateStep;
  }

  /** `last` lies between the last write among the first n events and the next presented summary. */
  ghost predicate Remembers(cfg: Configs, evs: seq<Event>, n: nat, last: real)
    requires cfg.Valid() && n <= |evs|
  {
    && (forall j :: n <= j < |evs| && evs[j].Present? ==> last <= evs[j].now)
    && (forall i :: 0 <= i < n && WritesAt(cfg, evs, i) ==> 0.0 <= evs[i].now <= last)
  }

  lemma {:induction false} RemembersNext(cfg: Configs, evs: seq<Event>, n: nat, last: real)
    requires cfg.Valid() && Ordered(evs) && n < |evs| && Remembers(cfg, evs, n, last)
    ensures Remembers(cfg, evs, n + 1, if WritesAt(cfg, evs, n) then evs[n].now else last)
  {
    assert WritesAt(cfg, evs, n) ==> evs[n].Present?;
    hide WritesAt;
    var next := if WritesAt(cfg, evs, n) then evs[n].now else last;
    assert last <= next;
    forall i | 0 <= i < n + 1 && WritesAt(cfg, evs, i) ensures 0.0 <= evs[i].now <= next {
      if i < n {
        assert 0.0 <= evs[i].now <= last;
      }
    }
  }

  /** The apply stage remembers its last write. */
  lemma {:induction false} LastWriteIsRemembered(cfg: Configs, evs: seq<Event>, n: nat)
    requires cfg.Valid() && Ordered(evs) && n <= |evs|
    ensures Remembers(cfg, evs, n, Run(cfg, evs[..n]).apply.lastApply)
  {
    if n > 0 {
      LastWriteIsRemembered(cfg, evs, n - 1);
      RunStep(cfg, evs, n - 1);
      RunHasInv(cfg, evs[..n - 1]);
      LastApplyStep(cfg, Before(cfg, evs, n - 1), evs[n - 1]);
      hide Run, Step, Writes, Inv, Remembers, Ordered;
      RemembersNext(cfg, evs, n - 1, Run(cfg, evs[..n - 1]).apply.lastApply);
    } else {
      assert A.INIT_APPLY.lastApply == -1.0;
    }
  }

  /** Any two writes are at least min_seconds_between_writebacks apart. */
  lemma {:induction false} WritesAreSpaced(cfg: Configs, evs: seq<Event>, i: nat, j: nat)
    requires cfg.Valid() && Ordered(evs) && i < j < |evs|
    ensures WritesAt(cfg, evs, i) && WritesAt(cfg, evs, j) ==> evs[j].now - evs[i].now >= cfg.yaw.minGap
  {
    if WritesAt(cfg, evs, i) && WritesAt(cfg, evs, j) {
      LastWriteIsRemembered(cfg, evs, j);
      RunHasInv(cfg, evs[..j]);
      StepHasEffect(cfg, Before(cfg, evs, j), evs[j]);
    }
    hide Run, Step, GateAfter, Inv, A.Accounts;
  }

  /** What the gate remembers of the summary reported at event i, and of anything presented so far. */
  lemma {:induction false} SummaryIsRemembered(cfg: Configs, evs: seq<Event>, i: nat, n: nat)
    requires cfg.Valid() && Stuttering(evs) && i < n <= |evs| && ReportsAt(cfg, evs, i)
    ensures var g := Run(cfg, evs[..n]).gate;
            && evs[i].m.scanId <= g.lastId && (g.lastId == evs[i].m.scanId ==> g.lastT == evs[i].m.t)
            && (forall j :: n <= j < |evs| && evs[j].Present? ==> g.lastId <= evs[j].m.scanId)
  {
    hide Run, Step, Inv, GateAfter;
    RunStep(cfg, evs, n - 1);
    RunHasInv(cfg, evs[..n - 1]);
    if i < n - 1 {
      SummaryIsRemembered(cfg, evs, i, n - 1);
    }
    MemoryStep(cfg, Before(cfg, evs, n - 1), evs[n - 1]);
  }

  lemma {:induction false} MemoryStep(cfg: Configs, s: Chain, e: Event)
    requires cfg.Valid() && Inv(cfg, s)
    ensures var n := Step(cfg, s, e).gate;
            && ((n.lastId == s.gate.lastId && n.lastT == s.gate.lastT)
                || (e.Present? && n.lastId == e.m.scanId && n.lastT == e.m.t))
            && (e.Present? && cfg.yaw.GateEnabled() && GateAfter(cfg, s, e).latest.HasCandidate() ==>
                  G.IsNew(s.gate, e.m) && n.lastId == e.m.scanId && n.lastT == e.m.t)
  {
    StepHasEffect(cfg, s, e);
    if e.Present? {
      G.GateEffect(cfg.yaw, s.gate, GateInputOf(s, e));
    }
    hide Step, G.GateStep, A.Wrote, G.WindowStep, G.IsBacked, G.Precheck, G.Accepts, G.Decides;
  }

  /** However often the application presents a summary again, the gate reports it at most once. A write
      needs a report, so each summary also leads to at most one write. */
  lemma {:induction false} EachSummaryOnce(cfg: Configs, evs: seq<Event>, i: nat, j: nat)
    requires cfg.Valid() && Stuttering(evs) && i < j < |evs|
    ensures ReportsAt(cfg, evs, i) && ReportsAt(cfg, evs, j) ==> evs[i].m.scanId < evs[j].m.scanId
    ensures WritesAt(cfg, evs, i) && WritesAt(cfg, evs, j) ==> evs[i].m.scanId < evs[j].m.scanId
  {
    WriteNeedsReport(cfg, evs, i);
    WriteNeedsReport(cfg, evs, j);
    if ReportsAt(cfg, evs, i) && ReportsAt(cfg, evs, j) {
      SummaryIsRemembered(cfg, evs, i, j);
      RunHasInv(cfg, evs[..j]);
      MemoryStep(cfg, Before(cfg, evs, j), evs[j]);
    }
    hide Run, Step, GateAfter, Inv, Writes;
  }

  lemma {:induction false} WriteNeedsReport(cfg: Configs, evs: seq<Event>, i: nat)
    requires cfg.Valid() && i < |evs|
    ensures WritesAt(cfg, evs, i) ==> ReportsAt(cfg, evs, i)
  {
    RunHasInv(cfg, evs[..i]);
    StepHasEffect(cfg, Before(cfg, evs, i), evs[i]);
    hide Run, Step, GateAfter, Inv, A.Accounts;
  }

  // ----- every write gets at most one verdict -----

  /** Writes that came while an earlier one still waited for its verdict. */
  ghost function Superseded(cfg: Configs, evs: seq<Event>): nat
    requires cfg.Valid()
  {
    if evs == [] then 0
    else
      var before, e := evs[..|evs| - 1], evs[|evs| - 1];
      var s := Run(cfg, before);
      Superseded(cfg, before) + (if Writes(cfg, s, e) && s.post.state == P.Waiting then 1 else 0)
  }

  function Pending(p: P.Post): nat { if p.state == P.Waiting then 1 else 0 }

  /** Each write is in one place: judged, overtaken by a later write before its verdict, or waiting. */
  lemma {:induction false} WritesAndVerdicts(cfg: Configs, evs: seq<Event>)
    requires cfg.Valid() && cfg.yaw.postEnabled
    ensures var s := Run(cfg, evs);
            s.apply.stats.successes == s.post.stats.Verdicts() + Superseded(cfg, evs) + Pending(s.post)
  {
    hide Step, Writes, Inv, InitChain;
    if evs == [] {
      NoVerdictsYet(cfg);
    } else {
      var before, e := evs[..|evs| - 1], evs[|evs| - 1];
      WritesAndVerdicts(cfg, before);
      RunHasInv(cfg, before);
      VerdictStep(cfg, Run(cfg, before), e);
    }
  }

  lemma {:induction false} NoVerdictsYet(cfg: Configs)
    requires cfg.Valid() && cfg.yaw.postEnabled
    ensures var s := InitChain(cfg);
            s.apply.stats.successes == s.post.stats.Verdicts() == Pending(s.post) == 0
  {
    assert A.INIT_APPLY.stats.successes == 0;
  }

  lemma {:induction false} VerdictStep(cfg: Configs, s: Chain, e: Event)
    requires cfg.Valid() && cfg.yaw.postEnabled && Inv(cfg, s)
    ensures var n := Step(cfg, s, e);
            if Writes(cfg, s, e) then
              && n.apply.stats.successes == s.apply.stats.successes + 1 && Pending(n.post) == 1
              && n.post.stats.Verdicts() == s.post.stats.Verdicts()
            else
              && n.apply.stats.successes == s.apply.stats.successes
              && n.post.stats.Verdicts() + Pending(n.post) == s.post.stats.Verdicts() + Pending(s.post)
  {
    hide G.GateStep, A.ApplyStep, P.IsFresh, G.FeedbackStep, A.LocalizationValidity, HeadingConsistent;
    StepHasEffect(cfg, s, e);
  }

  // ----- what a positive verdict certifies -----

  /** What an event without a write shows the validator. */
  function Unapplied(e: Event): P.PostInput
    requires e.Present?
  {
    P.PostInput(e.now, false, 0, 0.0, 0.0, e.m, 0.0)
  }

  lemma {:induction false} PostEffect(cfg: Configs, s: Chain, e: Event)
    requires cfg.Valid() && cfg.yaw.postEnabled && Inv(cfg, s)
    ensures var n := Step(cfg, s, e);
            if Writes(cfg, s, e) then
              n.post == s.post.(state := P.Waiting, since := e.now, scanId := e.m.scanId, matchT := e.m.t,
                                delta := n.apply.latest.delta, oldAbs := Abs(e.m.delta))
            else if e.Present? && cfg.yaw.GateEnabled() then n.post == P.PostStep(cfg.yaw, s.post, Unapplied(e))
            else n.post == s.post
  {
    hide G.GateStep, A.ApplyStep, G.FeedbackStep, A.LocalizationValidity, HeadingConsistent, P.IsFresh, P.Judge,
      P.Count;
    hide G.IsBacked, G.WindowStep, G.Accepts, G.Decides, A.Accounts, Abs;
    StepHasEffect(cfg, s, e);
    if e.Present? {
      G.GateEffect(cfg.yaw, s.gate, GateInputOf(s, e));
    }
  }

  /** Degrees written at event i. */
  function DeltaAt(cfg: Configs, evs: seq<Event>, i: nat): real
    requires cfg.Valid() && i < |evs|
  {
    Step(cfg, Before(cfg, evs, i), evs[i]).apply.latest.delta
  }

  /** Event i is the last write among the first n events. */
  ghost predicate IsLastWrite(cfg: Configs, evs: seq<Event>, i: nat, n: nat)
    requires cfg.Valid() && n <= |evs|
  {
    i < n && evs[i].Present? && WritesAt(cfg, evs, i) && forall j: nat :: i < j < n ==> !WritesAt(cfg, evs, j)
  }

  /** The validator's memory is of the write at event i. */
  ghost predicate IsOf(cfg: Configs, evs: seq<Event>, i: nat, p: P.Post)
    requires cfg.Valid() && i < |evs| && evs[i].Present?
  {
    && p.since == evs[i].now && p.scanId == evs[i].m.scanId && p.matchT == evs[i].m.t
    && p.delta == DeltaAt(cfg, evs, i) && p.oldAbs == Abs(evs[i].m.delta)
  }

  lemma {:induction false} StaysWaiting(cfg: YawConfig, p: P.Post, inp: P.PostInput)
    requires cfg.postEnabled && !inp.applied && P.PostStep(cfg, p, inp).state == P.Waiting
    ensures P.PostStep(cfg, p, inp) == p
  {}

  lemma {:induction false} StartsIdle(cfg: Configs, evs: seq<Event>)
    requires cfg.Valid() && cfg.yaw.postEnabled
    ensures Run(cfg, evs[..0]).post.state == P.Idle
  {
    assert evs[..0] == [];
  }

  /** A validator that waits for its verdict remembers the last write. */
  lemma {:induction false} WaitingRemembers(cfg: Configs, evs: seq<Event>, n: nat) returns (i: nat)
    requires cfg.Valid() && cfg.yaw.postEnabled && n <= |evs| && Run(cfg, evs[..n]).post.state == P.Waiting
    ensures IsLastWrite(cfg, evs, i, n) && IsOf(cfg, evs, i, Run(cfg, evs[..n]).post)
  {
    hide Step, P.PostStep, Inv, Abs;
    if n == 0 {
      StartsIdle(cfg, evs);
    } else {
      var s, e := Before(cfg, evs, n - 1), evs[n - 1];
      RunStep(cfg, evs, n - 1);
      RunHasInv(cfg, evs[..n - 1]);
      PostEffect(cfg, s, e);
      hide Run;
      if WritesAt(cfg, evs, n - 1) {
        i := n - 1;
      } else {
        if e.Present? && cfg.yaw.GateEnabled() {
          StaysWaiting(cfg.yaw, s.post, Unapplied(e));
        }
        hide Writes;
        i := WaitingRemembers(cfg, evs, n - 1);
      }
    }
  }

  /** Event n presents a usable and unambiguous match that is fresh against the match behind the write at
      event i and within the timeout, and whose candidate is smaller by the improvement that write requires. */
  ghost predicate Improves(cfg: Configs, evs: seq<Event>, i: nat, n: nat)
    requires cfg.Valid() && i < |evs| && n < |evs| && evs[i].Present? && evs[n].Present?
  {
    var before, after := evs[i].m, evs[n].m;
    && evs[n].now - evs[i].now <= cfg.yaw.timeout && after.attempted
    && (cfg.yaw.requireNewScanId ==> after.scanId != before.scanId)
    && (cfg.yaw.requireNewerMatch ==> after.t > before.t)
    && after.usable && !after.curveFlat && !after.multimodal && Abs(after.delta) <= cfg.yaw.maxPostCandidate
    && Abs(after.delta) + P.RequiredImprovement(cfg.yaw, DeltaAt(cfg, evs, i)) <= Abs(before.delta)
  }

  ghost predicate BecomesValidated(cfg: Configs, evs: seq<Event>, n: nat)
    requires cfg.Valid() && n < |evs|
  {
    Run(cfg, evs[..n]).post.state != P.Validated && Run(cfg, evs[..n + 1]).post.state == P.Validated
  }

  /** Over every run: an event validates exactly when the validator still waits for the verdict on the last
      write, the event makes no write itself, and its match improves on the match behind that write. */
  lemma {:induction false} ValidatedWritesImproved(cfg: Configs, evs: seq<Event>, n: nat)
    requires cfg.Valid() && cfg.yaw.postEnabled && n < |evs|
    ensures BecomesValidated(cfg, evs, n) <==>
            && Before(cfg, evs, n).post.state == P.Waiting && evs[n].Present? && !WritesAt(cfg, evs, n)
            && exists i: nat :: IsLastWrite(cfg, evs, i, n) && Improves(cfg, evs, i, n)
  {
    hide Run, Step, P.PostStep, Improves, IsOf, IsLastWrite, BecomesValidated, WritesAt;
    var e := evs[n];
    if e.Present? && Before(cfg, evs, n).post.state == P.Waiting {
      var i := WaitingRemembers(cfg, evs, n);
      LastWriteIsUnique(cfg, evs, i, n);
      JudgesLastWrite(cfg, evs, i, n);
    }
    ValidationNeedsWaiting(cfg, evs, n);
  }

  lemma {:induction false} LastWriteIsUnique(cfg: Configs, evs: seq<Event>, i: nat, n: nat)
    requires cfg.Valid() && n <= |evs| && IsLastWrite(cfg, evs, i, n)
    ensures i < n && evs[i].Present? && cfg.yaw.GateEnabled() && forall j: nat :: IsLastWrite(cfg, evs, j, n) ==> j == i
  {
    assert cfg.yaw.GateEnabled();
    hide Writes;
  }

  lemma {:induction false} ValidationNeedsWaiting(cfg: Configs, evs: seq<Event>, n: nat)
    requires cfg.Valid() && cfg.yaw.postEnabled && n < |evs|
    ensures BecomesValidated(cfg, evs, n) ==>
              Before(cfg, evs, n).post.state == P.Waiting && evs[n].Present? && !WritesAt(cfg, evs, n)
    ensures Before(cfg, evs, n).post.state == P.Waiting && evs[n].Present? && !WritesAt(cfg, evs, n)
            && cfg.yaw.GateEnabled() ==>
              (BecomesValidated(cfg, evs, n) <==>
               P.PostStep(cfg.yaw, Before(cfg, evs, n).post, Unapplied(evs[n])).state == P.Validated)
  {
    hide Inv, Abs, P.RequiredImprovement, P.IsFresh, P.Judge;
    var s, e := Before(cfg, evs, n), evs[n];
    RunStep(cfg, evs, n);
    RunHasInv(cfg, evs[..n]);
    PostEffect(cfg, s, e);
    hide Run, Step, Writes;
  }

  lemma {:induction false} JudgesLastWrite(cfg: Configs, evs: seq<Event>, i: nat, n: nat)
    requires cfg.Valid() && cfg.yaw.postEnabled && i < n < |evs| && evs[i].Present? && evs[n].Present?
    requires Before(cfg, evs, n).post.state == P.Waiting && IsOf(cfg, evs, i, Before(cfg, evs, n).post)
    ensures P.PostStep(cfg.yaw, Before(cfg, evs, n).post, Unapplied(evs[n])).state == P.Validated <==>
            Improves(cfg, evs, i, n)
  {
    hide Run, DeltaAt, P.PostStep, P.RequiredImprovement, Abs;
    P.ValidatedMeansImproved(cfg.yaw, Before(cfg, evs, n).post, Unapplied(evs[n]));
  }
}
