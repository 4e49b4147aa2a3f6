/** What the collector makes of readings, and why it opens and ends a session, in terms of the configured limits
    (include/robot_slamd/active_scan/sparse_scan_collector.hpp). */
module CollectorMeaning {
  import opened Angles
  import opened Collector
  import opened Sequences

  // ----- bearings and bins -----

  ghost function Mount(cfg: Config, id: Sensor): real { if id in cfg.mounts then cfg.mounts[id] else 0.0 }

  lemma {:induction false} Norm360Means(d: real) returns (k: int)
    ensures Norm360(d) == d + 360.0 * (k as real)
  {
    k := -(d / 360.0).Floor;
  }

  /** A sample's bearing is the direction its sensor points in, in degrees from 0 up to 360. */
  lemma {:induction false} BearingMeans(cfg: Config, yaw: real, id: Sensor)
    ensures 0.0 <= Bearing(cfg, yaw, id) < 360.0
    ensures Congruent(yaw + Deg2Rad(Mount(cfg, id)), Deg2Rad(Bearing(cfg, yaw, id)))
  {
    var a := yaw + Deg2Rad(Mount(cfg, id));
    var d := Rad2Deg(WrapPi(a));
    var k := Norm360Means(d);
    hide WrapPi, Congruent, Norm360;
    assert Deg2Rad(Norm360(d)) == WrapPi(a) + Turns(k);
    AddTurns(WrapPi(a), Deg2Rad(Norm360(d)), k);
    CongruentTrans(a, WrapPi(a), Deg2Rad(Norm360(d)));
  }

  lemma {:induction false} AddTurns(a: real, b: real, k: int)
    requires b == a + Turns(k)
    ensures Congruent(a, b)
  {
    assert a - b == Turns(-k);
  }

  lemma {:induction false} QuotientMeans(x: real, a: real)
    requires a > 0.0
    ensures (x / a) * a == x
  {}

  lemma {:induction false} ScaledLess(p: real, q: real, a: real)
    requires a > 0.0
    ensures p < q ==> p * a < q * a
    ensures p <= q ==> p * a <= q * a
  {}

  lemma {:induction false} IndexMeans(cfg: Config, bearing: real)
    requires cfg.Valid() && 0.0 <= bearing < 360.0
    ensures var i, a := BinIndex(cfg, bearing), cfg.binAngle; i as real * a <= bearing < (i + 1) as real * a
  {
    Norm360Stays(bearing);
    hide Norm360;
    assert BinIndex(cfg, bearing) == (bearing / cfg.binAngle).Floor;
    hide BinIndex;
    FloorMeans(bearing, cfg.binAngle);
  }

  lemma {:induction false} FloorMeans(x: real, a: real)
    requires a > 0.0
    ensures var i := (x / a).Floor; i as real * a <= x < (i + 1) as real * a
  {
    var q := x / a;
    QuotientMeans(x, a);
    Scaled(x, q, q.Floor, a);
  }

  lemma {:induction false} Scaled(x: real, q: real, k: int, a: real)
    requires a > 0.0 && q * a == x && k as real <= q < (k + 1) as real
    ensures k as real * a <= x < (k + 1) as real * a
  {
    ScaledLess(k as real, q, a);
    ScaledLess(q, (k + 1) as real, a);
  }

  lemma {:induction false} Norm360Stays(bearing: real)
    requires 0.0 <= bearing < 360.0
    ensures Norm360(bearing) == bearing
  {
    assert (bearing / 360.0).Floor == 0;
  }

  lemma {:induction false} CountMeans(cfg: Config)
    requires cfg.Valid()
    ensures var n, a := BinCount(cfg), cfg.binAngle; 360.0 <= n as real * a < 360.0 + a
  {
    var p := 360.0 / cfg.binAngle;
    QuotientMeans(360.0, cfg.binAngle);
    CeilMeans(p);
    hide Ceil;
    if p <= 0.0 {
      ScaledLess(p, 0.0, cfg.binAngle);
      assert false;
    }
    BinsCover(p, Ceil(p) as real, cfg.binAngle);
  }

  lemma {:induction false} BinsCover(p: real, n: real, a: real)
    requires a > 0.0 && p * a == 360.0 && p <= n < p + 1.0
    ensures 360.0 <= n * a < 360.0 + a
  {
    ScaledLess(p, n, a);
    ScaledLess(n, p + 1.0, a);
    Distributes(p, a);
  }

  lemma {:induction false} Distributes(p: real, a: real)
    ensures (p + 1.0) * a == p * a + a
  {}

  /** A bearing goes to the bin whose sector holds it, and the sectors of all bins just cover the circle. */
  lemma {:induction false} BinMeans(cfg: Config, bearing: real)
    requires cfg.Valid() && 0.0 <= bearing < 360.0
    ensures var i, n, a := BinIndex(cfg, bearing), BinCount(cfg), cfg.binAngle;
            && i as real * a <= bearing < (i + 1) as real * a
            && 360.0 <= n as real * a < 360.0 + a
  {
    hide *;
    IndexMeans(cfg, bearing);
    CountMeans(cfg);
  }

  // ----- which readings become samples -----

  /** A reading that went into the map, hit, and lies within the limits on confidence and range. */
  ghost predicate IsGood(cfg: Config, t: Tof) {
    t.mapUpdate && t.hit && cfg.minConfidence <= t.confidence && t.range >= cfg.minRange && t.range <= cfg.maxRange
  }

  lemma {:induction false} SampleMeans(cfg: Config, scanId: nat, inp: Input, t: Tof)
    ensures var x := SampleOf(cfg, scanId, inp, t);
            && x.scanId == scanId && x.t == inp.now && x.id == t.id && x.range == t.range && x.hit == t.hit
            && x.confidence == t.confidence && (x.valid <==> IsGood(cfg, t))
            && Congruent(inp.yaw + Deg2Rad(Mount(cfg, t.id)), Deg2Rad(x.bearing))
  {
    BearingMeans(cfg, inp.yaw, t.id);
    hide Bearing, Congruent, Deg2Rad;
  }

  /** Positions of the valid samples from position i on; those of one sensor. */
  ghost function Valids(samples: seq<Sample>, i: nat): set<nat> { set k: nat | i <= k < |samples| && samples[k].valid }

  ghost function ValidsOf(samples: seq<Sample>, i: nat, id: Sensor): set<nat> {
    set k: nat | i <= k < |samples| && samples[k].valid && samples[k].id == id
  }

  /** The session has counted its samples from position i on, on top of what it had counted before. */
  ghost predicate Counted(s: Session, r: Session, i: nat) {
    && r.valid == s.valid + |Valids(r.samples, i)| && r.valid + r.invalid == s.valid + s.invalid + |r.samples| - i
    && r.front == s.front + |ValidsOf(r.samples, i, Front)| && r.left == s.left + |ValidsOf(r.samples, i, Left)|
    && r.right == s.right + |ValidsOf(r.samples, i, Right)|
  }

  lemma {:induction false} ValidsSnoc(samples: seq<Sample>, i: nat, x: Sample)
    requires i <= |samples|
    ensures |Valids(samples + [x], i)| == |Valids(samples, i)| + Count(x.valid)
  {
    var more, n := samples + [x], |samples|;
    assert Valids(more, i) == if x.valid then Valids(samples, i) + {n} else Valids(samples, i);
  }

  lemma {:induction false} ValidsOfSnoc(samples: seq<Sample>, i: nat, id: Sensor, x: Sample)
    requires i <= |samples|
    ensures |ValidsOf(samples + [x], i, id)| == |ValidsOf(samples, i, id)| + Count(x.valid && x.id == id)
  {
    var more, n, was := samples + [x], |samples|, ValidsOf(samples, i, id);
    assert ValidsOf(more, i, id) == if x.valid && x.id == id then was + {n} else was;
  }

  /** Taking a sample counts it: as valid or invalid, and if valid for its sensor. */
  lemma {:induction false} TakeCounts(cfg: Config, s: Session, now: real, x: Sample, before: Session, i: nat)
    requires cfg.binAngle > 0.0 && |s.bins| == BinCount(cfg) && i <= |s.samples| && Counted(before, s, i)
    ensures Counted(before, TakeSample(cfg, s, now, x), i)
  {
    ValidsSnoc(s.samples, i, x);
    ValidsOfSnoc(s.samples, i, Front, x);
    ValidsOfSnoc(s.samples, i, Left, x);
    ValidsOfSnoc(s.samples, i, Right, x);
    hide Valids, ValidsOf, BinCount, BinIndex, AddToBin;
  }

  /** Collecting keeps the counts. */
  lemma {:induction false} CollectCounts(cfg: Config, scanId: nat, s: Session, inp: Input, k: nat, before: Session,
                                         i: nat)
    requires cfg.binAngle > 0.0 && |s.bins| == BinCount(cfg) && i <= |s.samples| && Counted(before, s, i)
    ensures Counted(before, CollectFrom(cfg, scanId, s, inp, k), i)
    decreases |inp.tofs| - k
  {
    hide Counted, TakeSample, SampleOf, Keeps, BinCount;
    if k < |inp.tofs| {
      if s.total >= cfg.maxSamples {
        FullCounts(before, s, i);
      } else if Keeps(cfg, inp.tofs[k]) {
        var x := SampleOf(cfg, scanId, inp, inp.tofs[k]);
        TakeCounts(cfg, s, inp.now, x, before, i);
        CollectCounts(cfg, scanId, TakeSample(cfg, s, inp.now, x), inp, k + 1, before, i);
      } else {
        CollectCounts(cfg, scanId, s, inp, k + 1, before, i);
      }
    }
  }

  lemma {:induction false} FullCounts(before: Session, s: Session, i: nat)
    requires Counted(before, s, i)
    ensures Counted(before, s.(full := true), i)
  {}

  /** The session took a sample of each reading in `at`, in that order, and nothing else. */
  ghost predicate Took(cfg: Config, scanId: nat, inp: Input, s: Session, r: Session, at: seq<nat>) {
    && |r.samples| == |s.samples| + |at| && r.samples[..|s.samples|] == s.samples && r.total == s.total + |at|
    && (forall k :: 0 <= k < |at| ==> at[k] < |inp.tofs|
                                      && r.samples[|s.samples| + k] == SampleOf(cfg, scanId, inp, inp.tofs[at[k]]))
  }

  lemma {:induction false} TookNothing(cfg: Config, scanId: nat, inp: Input, s: Session, r: Session)
    requires r.samples == s.samples && r.total == s.total
    ensures Took(cfg, scanId, inp, s, r, [])
  {}

  lemma {:induction false} TookOne(cfg: Config, scanId: nat, inp: Input, s: Session, t: Session, r: Session, i: nat,
                                   at: seq<nat>)
    requires i < |inp.tofs| && Took(cfg, scanId, inp, t, r, at)
    requires t.samples == s.samples + [SampleOf(cfg, scanId, inp, inp.tofs[i])] && t.total == s.total + 1
    ensures Took(cfg, scanId, inp, s, r, [i] + at)
  {
    hide SampleOf;
    assert r.samples[..|s.samples|] == r.samples[..|t.samples|][..|s.samples|] == s.samples;
    assert r.samples[|s.samples|] == r.samples[..|t.samples|][|s.samples|];
  }

  /** The readings from i on, and before n, that are worth keeping. */
  ghost function WorthFrom(cfg: Config, tofs: seq<Tof>, i: nat, n: nat): seq<nat>
    requires i <= n <= |tofs|
    decreases n - i
  {
    if i == n then []
    else if IsGood(cfg, tofs[i]) || cfg.keepInvalid then [i] + WorthFrom(cfg, tofs, i + 1, n)
    else WorthFrom(cfg, tofs, i + 1, n)
  }

  /** An update reads on until the session is full when a reading is still to be looked at. It takes a sample of each
      reading worth keeping, in order; and if it stopped early the session is marked full. */
  lemma {:induction false} CollectMeans(cfg: Config, scanId: nat, s: Session, inp: Input, i: nat) returns (n: nat)
    requires cfg.binAngle > 0.0 && |s.bins| == BinCount(cfg) && i <= |inp.tofs|
    ensures i <= n <= |inp.tofs|
    ensures var r := CollectFrom(cfg, scanId, s, inp, i);
            && Took(cfg, scanId, inp, s, r, WorthFrom(cfg, inp.tofs, i, n))
            && (n < |inp.tofs| ==> r.full && r.total >= cfg.maxSamples)
            && (n == |inp.tofs| ==> r.full == s.full)
            && forall m: nat :: i <= m < n ==> s.total + |WorthFrom(cfg, inp.tofs, i, m)| < cfg.maxSamples
    decreases |inp.tofs| - i
  {
    hide Took, TakeSample, SampleOf, IsGood, Keeps, BinCount;
    n := i;
    if i == |inp.tofs| || s.total >= cfg.maxSamples {
      TookNothing(cfg, scanId, inp, s, CollectFrom(cfg, scanId, s, inp, i));
    } else {
      KeepsMeans(cfg, inp.tofs[i]);
      if Keeps(cfg, inp.tofs[i]) {
        var x := SampleOf(cfg, scanId, inp, inp.tofs[i]);
        var t := TakeSample(cfg, s, inp.now, x);
        TakeMeans(cfg, s, inp.now, x);
        n := CollectMeans(cfg, scanId, t, inp, i + 1);
        TookOne(cfg, scanId, inp, s, t, CollectFrom(cfg, scanId, t, inp, i + 1), i, WorthFrom(cfg, inp.tofs, i + 1, n));
      } else {
        n := CollectMeans(cfg, scanId, s, inp, i + 1);
      }
    }
  }

  lemma {:induction false} KeepsMeans(cfg: Config, t: Tof)
    ensures Keeps(cfg, t) <==> IsGood(cfg, t) || cfg.keepInvalid
  {}

  lemma {:induction false} TakeMeans(cfg: Config, s: Session, now: real, x: Sample)
    requires cfg.binAngle > 0.0 && |s.bins| == BinCount(cfg)
    ensures var t := TakeSample(cfg, s, now, x);
            && t.samples == s.samples + [x] && t.total == s.total + 1 && t.full == s.full
            && t.lastValid == (if x.valid then now else s.lastValid)
            && t.start == s.start && t.lastYaw == s.lastYaw && t.observed == s.observed
  {
    hide BinCount, AddToBin;
  }

  // ----- why a session may not open, and why it ends -----

  /** The place of a ground in the order in which it is looked at, before a session and while one waits for its end. */
  function Rank(why: Reason): nat {
    match why
    case LocalizationInvalid => 0
    case LinearSpeedTooHigh => 1
    case YawRateTooLow => 2
    case YawRateTooHigh => 3
    case SessionTimeout => 4
    case MaxGap => 5
    case NotRecommended => 6
    case MappingNotAllowed => 7
    case InCooldown => 8
    case _ => 9
  }

  /** What speaks against collecting on this ground. */
  ghost predicate Blocks(cfg: Config, s: Coll, inp: Input, why: Reason) {
    match why
    case LocalizationInvalid => !inp.localizationValid
    case LinearSpeedTooHigh => inp.linearSpeed > cfg.maxLinearSpeed || inp.linearSpeed < -cfg.maxLinearSpeed
    case YawRateTooLow => Abs(inp.yawRate) < Deg2Rad(cfg.minYawRate)
    case YawRateTooHigh => Abs(inp.yawRate) > Deg2Rad(cfg.maxYawRate)
    case NotRecommended => cfg.requireRecommended && !inp.recommended
    case MappingNotAllowed => cfg.requireMapping && !inp.mappingAllowed
    case InCooldown => s.state == Idle && 0.0 <= s.cooldownUntil && inp.now < s.cooldownUntil
    case _ => false
  }

  ghost predicate IsFree(cfg: Config, s: Coll, inp: Input) { forall why :: !Blocks(cfg, s, inp, why) }

  ghost predicate FirstBlock(cfg: Config, s: Coll, inp: Input, why: Reason) {
    Blocks(cfg, s, inp, why) && forall other :: Blocks(cfg, s, inp, other) ==> Rank(why) <= Rank(other)
  }

  /** Somebody wants a collection: a scan, a command, or a rotation at a speed that counts. */
  ghost predicate IsWanted(cfg: Config, inp: Input) {
    || (cfg.onActiveScan && inp.activeScan) || (cfg.onCommand && inp.command)
    || (cfg.onNatural && Deg2Rad(cfg.minYawRate) <= Abs(inp.yawRate) <= Deg2Rad(cfg.maxYawRate))
  }

  lemma {:induction false} RateIff(rate: real, limit: real)
    ensures Rad2Deg(Abs(rate)) < limit <==> Abs(rate) < Deg2Rad(limit)
    ensures Rad2Deg(Abs(rate)) > limit <==> Abs(rate) > Deg2Rad(limit)
  {}

  lemma {:induction false} BlockIsFirst(cfg: Config, s: Coll, inp: Input, other: Reason)
    ensures var why := BlockedReason(cfg, s, inp);
            && (why == NotCollecting ==> !Blocks(cfg, s, inp, other))
            && (why != NotCollecting ==> Blocks(cfg, s, inp, why))
            && (Blocks(cfg, s, inp, other) ==> Rank(why) <= Rank(other))
  {
    RateIff(inp.yawRate, cfg.minYawRate);
    RateIff(inp.yawRate, cfg.maxYawRate);
    hide Rad2Deg, Deg2Rad;
  }

  /** The reason against collecting names the first ground there is. */
  lemma {:induction false} BlockedMeans(cfg: Config, s: Coll, inp: Input)
    ensures var why := BlockedReason(cfg, s, inp);
            if why == NotCollecting then IsFree(cfg, s, inp) else FirstBlock(cfg, s, inp, why) && !IsFree(cfg, s, inp)
    ensures Trigger(cfg, inp) <==> IsWanted(cfg, inp)
  {
    RateIff(inp.yawRate, cfg.minYawRate);
    RateIff(inp.yawRate, cfg.maxYawRate);
    hide BlockedReason, Blocks, Rank, Rad2Deg, Deg2Rad;
    forall other
      ensures BlockedReason(cfg, s, inp) == NotCollecting ==> !Blocks(cfg, s, inp, other)
      ensures BlockedReason(cfg, s, inp) != NotCollecting ==> Blocks(cfg, s, inp, BlockedReason(cfg, s, inp))
      ensures Blocks(cfg, s, inp, other) ==> Rank(BlockedReason(cfg, s, inp)) <= Rank(other)
    {
      BlockIsFirst(cfg, s, inp, other);
    }
  }

  /** A session opens exactly when collecting is on, idle, wanted, and nothing speaks against it. */
  lemma {:induction false} OpensIff(cfg: Config, s: Coll, inp: Input)
    ensures Opens(cfg, s, inp) <==> cfg.enabled && s.state == Idle && IsWanted(cfg, inp) && IsFree(cfg, s, inp)
  {
    BlockedMeans(cfg, s, inp);
    hide BlockedReason, Trigger, IsWanted, IsFree, FirstBlock;
  }

  /** What ends a running session at once. */
  ghost predicate Breaks(cfg: Config, s: Coll, inp: Input, why: Reason) {
    match why
    case LocalizationInvalid | LinearSpeedTooHigh | YawRateTooHigh => Blocks(cfg, s, inp, why)
    case SessionTimeout => inp.now > s.ses.start + cfg.timeout
    case MaxGap => 0.0 <= s.ses.lastValid && inp.now > s.ses.lastValid + cfg.maxGap
    case _ => false
  }

  ghost predicate FirstBreak(cfg: Config, s: Coll, inp: Input, why: Reason) {
    Breaks(cfg, s, inp, why) && forall other :: Breaks(cfg, s, inp, other) ==> Rank(why) <= Rank(other)
  }

  lemma {:induction false} BreakIsFirst(cfg: Config, s: Coll, inp: Input, other: Reason)
    ensures var (stop, completed, why) := StopReason(cfg, s, inp);
            Breaks(cfg, s, inp, other) ==>
              stop && !completed && Breaks(cfg, s, inp, why) && Rank(why) <= Rank(other)
  {
    RateIff(inp.yawRate, cfg.maxYawRate);
    hide Rad2Deg, Deg2Rad, Trigger, GatesOk, BlockedReason;
  }

  lemma {:induction false} UnbrokenStop(cfg: Config, s: Coll, inp: Input)
    requires forall other :: !Breaks(cfg, s, inp, other)
    ensures StopReason(cfg, s, inp)
            == if Trigger(cfg, inp) && GatesOk(cfg, s, inp) then (false, false, NotCollecting)
               else if s.ses.observed >= cfg.usefulAngle then (true, true, RequestClearedUseful)
               else (true, false, if Trigger(cfg, inp) then BlockedReason(cfg, s, inp) else RequestCleared)
  {
    assert !Breaks(cfg, s, inp, LocalizationInvalid) && !Breaks(cfg, s, inp, LinearSpeedTooHigh);
    assert !Breaks(cfg, s, inp, YawRateTooHigh) && !Breaks(cfg, s, inp, SessionTimeout) && !Breaks(cfg, s, inp, MaxGap);
    RateIff(inp.yawRate, cfg.maxYawRate);
    hide Rad2Deg, Deg2Rad, Trigger, GatesOk, BlockedReason;
  }

  /** A running session is aborted on the first ground that ends it at once. Without one it goes on while it is wanted
      and nothing speaks against it; else it ends, completed if enough of a turn has been seen. */
  lemma {:induction false} StopMeans(cfg: Config, s: Coll, inp: Input)
    ensures var (stop, completed, why) := StopReason(cfg, s, inp);
            if exists other :: Breaks(cfg, s, inp, other) then stop && !completed && FirstBreak(cfg, s, inp, why)
            else
              && (stop <==> !IsWanted(cfg, inp) || !IsFree(cfg, s, inp))
              && (completed <==> stop && s.ses.observed >= cfg.usefulAngle)
              && (completed ==> why == RequestClearedUseful)
              && (stop && !completed ==>
                    if IsWanted(cfg, inp) then FirstBlock(cfg, s, inp, why) else why == RequestCleared)
  {
    BlockedMeans(cfg, s, inp);
    hide BlockedReason, Trigger, IsWanted, IsFree, FirstBlock, Breaks, Rank, StopReason;
    if exists other :: Breaks(cfg, s, inp, other) {
      forall other | Breaks(cfg, s, inp, other)
        ensures StopReason(cfg, s, inp).0 && !StopReason(cfg, s, inp).1
        ensures Breaks(cfg, s, inp, StopReason(cfg, s, inp).2) && Rank(StopReason(cfg, s, inp).2) <= Rank(other)
      {
        BreakIsFirst(cfg, s, inp, other);
      }
    } else {
      UnbrokenStop(cfg, s, inp);
    }
  }
}
