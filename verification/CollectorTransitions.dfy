/** What takes the collector to each state, and what the summary of an ended session says
    (include/robot_slamd/active_scan/sparse_scan_collector.hpp). */
module CollectorTransitions {
  import opened Angles
  import opened Collector
  import opened CollectorMeaning

  ghost predicate MayOpen(cfg: Config, s: Coll, inp: Input) {
    s.state == Idle && IsWanted(cfg, inp) && IsFree(cfg, s, inp)
  }

  /** The session that an update works on: a fresh one, or the running one with the rotation since the last update. */
  ghost function Current(cfg: Config, s: Coll, inp: Input): Session
    requires cfg.binAngle > 0.0
  {
    if s.state == Idle then
      Session(inp.now, inp.now, inp.yaw, 0.0, 0, 0, 0, 0, 0, 0, false, seq(BinCount(cfg), _ => EMPTY_BIN), [])
    else
      s.ses.(observed := s.ses.observed + Rad2Deg(Abs(WrapPi(inp.yaw - s.ses.lastYaw))), lastYaw := inp.yaw)
  }

  ghost predicate IsBroken(cfg: Config, s: Coll, inp: Input)
    requires cfg.binAngle > 0.0
  {
    exists why :: Breaks(cfg, s.(ses := Current(cfg, s, inp)), inp, why)
  }

  /** The update stops the running session before it collects anything. */
  ghost predicate IsStopped(cfg: Config, s: Coll, inp: Input)
    requires cfg.binAngle > 0.0
  {
    s.state == Collecting && (IsBroken(cfg, s, inp) || !IsWanted(cfg, inp) || !IsFree(cfg, s, inp))
  }

  /** The update collects readings. */
  ghost predicate Collects(cfg: Config, s: Coll, inp: Input)
    requires cfg.binAngle > 0.0
  {
    MayOpen(cfg, s, inp) || (s.state == Collecting && !IsStopped(cfg, s, inp))
  }

  /** Collecting has filled the session. */
  ghost predicate Fills(cfg: Config, s: Coll, inp: Input)
    requires cfg.Valid()
  {
    var scanId := if s.state == Idle then s.scanId + 1 else s.scanId;
    var ses := Current(cfg, s, inp);
    |ses.bins| == BinCount(cfg) && CollectFrom(cfg, scanId, ses, inp, 0).full
  }

  /** What takes the collector to this state, or keeps it there. */
  ghost predicate Takes(cfg: Config, s: Coll, inp: Input, to: State)
    requires cfg.Valid()
  {
    var seen := Current(cfg, s, inp).observed;
    var collects, fills, stopped := Collects(cfg, s, inp), Fills(cfg, s, inp), IsStopped(cfg, s, inp);
    (to != Disabled ==> cfg.enabled)
    && match to
       case Disabled => !cfg.enabled || s.state == Disabled
       case Idle =>
         (s.state == Idle && !MayOpen(cfg, s, inp)) || (s.state == Cooldown && s.cooldownUntil <= inp.now)
       case Cooldown =>
         s.state == Completed || s.state == Aborted || (s.state == Cooldown && inp.now < s.cooldownUntil)
       case Collecting => collects && !fills && seen < cfg.completeAngle
       case Completed =>
         || (stopped && !IsBroken(cfg, s, inp) && seen >= cfg.usefulAngle)
         || (collects && seen >= (if fills then cfg.usefulAngle else cfg.completeAngle))
       case Aborted =>
         || (stopped && (IsBroken(cfg, s, inp) || seen < cfg.usefulAngle))
         || (collects && fills && seen < cfg.usefulAngle)
  }

  /** The summary of a session that this update ends. */
  ghost predicate Tells(cfg: Config, s: Coll, inp: Input, n: Coll)
    requires cfg.Valid()
  {
    var ses := Current(cfg, s, inp);
    |n.summaries| == |s.summaries| + 1 && n.summaries[..|s.summaries|] == s.summaries
    && n.cooldownUntil == inp.now + cfg.cooldown
    && var x := n.summaries[|s.summaries|];
       && x.start == ses.start && x.end == inp.now && x.observed == ses.observed
       && (x.completed <==> n.state == Completed)
       && (x.useful <==> ses.observed >= cfg.usefulAngle) && (x.complete <==> ses.observed >= cfg.completeAngle)
       && (x.reason == MaxSamplesReached <==> Collects(cfg, s, inp) && Fills(cfg, s, inp))
       && (x.reason == CompleteTurn <==> Collects(cfg, s, inp) && !Fills(cfg, s, inp))
       && (x.reason == RequestClearedUseful <==> IsStopped(cfg, s, inp) && x.completed)
       && (IsStopped(cfg, s, inp) && IsBroken(cfg, s, inp) ==> FirstBreak(cfg, s.(ses := ses), inp, x.reason))
       && (IsStopped(cfg, s, inp) && !IsBroken(cfg, s, inp) && !x.completed ==>
             if IsWanted(cfg, inp) then FirstBlock(cfg, s, inp, x.reason) else x.reason == RequestCleared)
  }

  /** An update that ends no session leaves the summaries and the end of the cooldown alone. */
  ghost predicate Keeps(s: Coll, n: Coll) { n.summaries == s.summaries && n.cooldownUntil == s.cooldownUntil }

  ghost predicate Ends(s: Coll, n: Coll) {
    (s.state == Idle || s.state == Collecting) && (n.state == Completed || n.state == Aborted)
  }

  /** The work of an update: its state, and what it says of a session that it ends. */
  ghost predicate Does(cfg: Config, s: Coll, inp: Input, n: Coll)
    requires cfg.Valid()
  {
    Takes(cfg, s, inp, n.state) && if Ends(s, n) then Tells(cfg, s, inp, n) else Keeps(s, n)
  }

  lemma {:induction false} FinalizeTells(cfg: Config, c: Coll, now: real, completed: bool, why: Reason)
    ensures var n := Finalize(cfg, c, now, completed, why);
            && n.state == (if completed then Completed else Aborted) && n.cooldownUntil == now + cfg.cooldown
            && |n.summaries| == |c.summaries| + 1 && n.summaries[..|c.summaries|] == c.summaries
            && var x := n.summaries[|c.summaries|];
               && x.start == c.ses.start && x.end == now && x.observed == c.ses.observed && x.completed == completed
               && x.reason == why && (x.useful <==> c.ses.observed >= cfg.usefulAngle)
               && (x.complete <==> c.ses.observed >= cfg.completeAngle)
  {}

  lemma {:induction false} CollectKeepsFrame(cfg: Config, scanId: nat, s: Session, inp: Input, i: nat)
    requires cfg.binAngle > 0.0 && |s.bins| == BinCount(cfg)
    ensures var r := CollectFrom(cfg, scanId, s, inp, i); r.start == s.start && r.observed == s.observed
    decreases |inp.tofs| - i
  {
    hide TakeSample, SampleOf, Collector.Keeps, BinCount;
    if i < |inp.tofs| && s.total < cfg.maxSamples {
      var x := SampleOf(cfg, scanId, inp, inp.tofs[i]);
      TakeMeans(cfg, s, inp.now, x);
      var t := if Collector.Keeps(cfg, inp.tofs[i]) then TakeSample(cfg, s, inp.now, x) else s;
      CollectKeepsFrame(cfg, scanId, t, inp, i + 1);
    }
  }

  /** Collecting, whether a session was just opened or goes on. */
  lemma {:induction false} CollectDoes(cfg: Config, s: Coll, c: Coll, inp: Input)
    requires cfg.Valid() && cfg.enabled && Collects(cfg, s, inp) && |c.ses.bins| == BinCount(cfg)
    requires c.ses == Current(cfg, s, inp) && c.scanId == (if s.state == Idle then s.scanId + 1 else s.scanId)
    requires c.state == Collecting && c.summaries == s.summaries && c.cooldownUntil == s.cooldownUntil
    requires cfg.usefulAngle <= cfg.completeAngle
    ensures Does(cfg, s, inp, CollectAndMaybeFinalize(cfg, c, inp))
  {
    CollectKeepsFrame(cfg, c.scanId, c.ses, inp, 0);
    var seen, c1 := c.ses.observed, Collected(cfg, c, inp);
    FinalizeTells(cfg, c1, inp.now, seen >= cfg.usefulAngle, MaxSamplesReached);
    FinalizeTells(cfg, c1, inp.now, true, CompleteTurn);
    hide CollectFrom, Finalize, IsBroken, IsWanted, IsFree, FirstBreak, FirstBlock, Current, BinCount;
  }

  lemma {:induction false} OpenedIsCurrent(cfg: Config, s: Coll, inp: Input)
    requires cfg.Valid() && s.state == Idle
    ensures Begun(cfg, s, inp).ses == Current(cfg, s, inp) && |Current(cfg, s, inp).bins| == BinCount(cfg)
  {
    assert FreshBins(cfg) == Current(cfg, s, inp).bins;
  }

  lemma {:induction false} RotatedIsCurrent(cfg: Config, s: Coll, inp: Input)
    requires cfg.Valid() && s.state != Idle
    ensures Rotated(s.ses, inp.yaw) == Current(cfg, s, inp) && Current(cfg, s, inp).bins == s.ses.bins
  {}

  lemma {:induction false} FreeIgnoresSession(cfg: Config, s: Coll, ses: Session, inp: Input)
    ensures IsFree(cfg, s.(ses := ses), inp) <==> IsFree(cfg, s, inp)
    ensures forall why :: FirstBlock(cfg, s.(ses := ses), inp, why) <==> FirstBlock(cfg, s, inp, why)
  {
    forall why ensures Blocks(cfg, s.(ses := ses), inp, why) <==> Blocks(cfg, s, inp, why) {}
    hide Blocks, Rank;
  }

  lemma {:induction false} StopDoes(cfg: Config, s: Coll, inp: Input)
    requires cfg.Valid() && cfg.enabled && s.state == Collecting && IsStopped(cfg, s, inp)
    ensures var c := s.(ses := Current(cfg, s, inp));
            var (stop, completed, why) := StopReason(cfg, c, inp);
            stop && Does(cfg, s, inp, Finalize(cfg, c, inp.now, completed, why))
  {
    var c := s.(ses := Current(cfg, s, inp));
    var (stop, completed, why) := StopReason(cfg, c, inp);
    StopMeans(cfg, c, inp);
    FreeIgnoresSession(cfg, s, c.ses, inp);
    FinalizeTells(cfg, c, inp.now, completed, why);
    BreakIsNamed(cfg, c, inp, why);
    hide CollectFrom, Finalize, StopReason, IsWanted, IsFree, FirstBreak, FirstBlock, Current, BinCount;
  }

  /** The reasons for stopping at once, or not starting, are none of those for an end by collecting or request. */
  lemma {:induction false} BreakIsNamed(cfg: Config, c: Coll, inp: Input, why: Reason)
    ensures FirstBreak(cfg, c, inp, why) || FirstBlock(cfg, c, inp, why) || why == RequestCleared ==>
              why != MaxSamplesReached && why != CompleteTurn && why != RequestClearedUseful
  {}

  lemma {:induction false} RunningDoes(cfg: Config, s: Coll, inp: Input)
    requires cfg.Valid() && cfg.enabled && s.state == Collecting && |s.ses.bins| == BinCount(cfg)
    ensures Does(cfg, s, inp, Continued(cfg, s.(ses := Rotated(s.ses, inp.yaw)), inp))
  {
    RotatedIsCurrent(cfg, s, inp);
    var c := s.(ses := Current(cfg, s, inp));
    if IsStopped(cfg, s, inp) {
      StopDoes(cfg, s, inp);
    } else {
      StopMeans(cfg, c, inp);
      FreeIgnoresSession(cfg, s, c.ses, inp);
      CollectDoes(cfg, s, c, inp);
    }
    hide Does, Finalize, CollectAndMaybeFinalize, StopReason, Rotated, Current, IsWanted, IsFree, FirstBreak,
      FirstBlock, BinCount;
  }

  /** Every update: the state it leads to, and what it says of a session that it ends. */
  lemma {:induction false} UpdateDoes(cfg: Config, s: Coll, inp: Input)
    requires cfg.Valid() && |s.ses.bins| == BinCount(cfg)
    ensures Does(cfg, s, inp, Updated(cfg, s, inp))
  {
    if cfg.enabled && s.state == Idle && MayOpen(cfg, s, inp) {
      OpensIff(cfg, s, inp);
      OpenedIsCurrent(cfg, s, inp);
      hide Does;
      CollectDoes(cfg, s, Begun(cfg, s, inp), inp);
    } else if cfg.enabled && s.state == Collecting {
      hide Does;
      RunningDoes(cfg, s, inp);
    } else {
      OpensIff(cfg, s, inp);
      hide Tells, Continued, CollectAndMaybeFinalize, IsWanted, IsFree, IsBroken, Fills, Current, BinCount;
    }
  }

  lemma {:induction false} TakesOne(cfg: Config, s: Coll, inp: Input, to: State, other: State)
    requires cfg.Valid() && Takes(cfg, s, inp, to) && Takes(cfg, s, inp, other)
    ensures to == other
  {
    hide IsWanted, IsFree, IsBroken, Fills, Current;
  }

  /** An update leads to a state exactly when the ground for it is given. */
  lemma {:induction false} StateIff(cfg: Config, s: Coll, inp: Input, to: State)
    requires cfg.Valid() && |s.ses.bins| == BinCount(cfg)
    ensures Updated(cfg, s, inp).state == to <==> Takes(cfg, s, inp, to)
  {
    hide Updated, Takes, BinCount;
    UpdateDoes(cfg, s, inp);
    if Takes(cfg, s, inp, to) {
      TakesOne(cfg, s, inp, to, Updated(cfg, s, inp).state);
    }
  }
}
