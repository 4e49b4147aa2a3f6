/** Which step sizes keep the finished curve of the yaw matcher separated, and inputs on which separation
    and the runner-up are lost (include/robot_slamd/active_scan/sparse_scan_yaw_matcher.hpp). */
module YawSeparation {
  import opened Angles
  import opened Sequences
  import opened YawCurve
  import opened YawMatcher
  import opened YawMatching

  /** Every curve that a valid refining configuration with these steps can give is separated. */
  ghost predicate AlwaysSeparated(coarse: real, fine: real) {
    forall cfg: Config, f: real -> Fit ::
      cfg.Valid() && cfg.refine && cfg.coarseStep == coarse && cfg.refineStep == fine ==> Separated(Curve(cfg, f))
  }

  /** A configuration in which only the sweeps matter. */
  function Sweeping(max: real, coarse: real, refine: bool, window: real, fine: real): Config {
    Config(true, false, true, true, 0, 0, 0.0, 0.0, max, coarse, refine, window, fine, 1, 0.0, 0.0, 0.0, 1.0, false,
           0.0, 0.0)
  }

  // ----- a coarse sweep of three elements -----

  /** k steps are the least number that span TINY. */
  ghost predicate Spans(k: nat, step: real, width: real) {
    k >= 1 && step > 0.0 && width == k as real * step && width - step < TINY <= width
  }

  lemma {:induction false} SomeSpan(step: real) returns (k: nat, width: real)
    requires step > 0.0
    ensures Spans(k, step, width)
  {
    var q := TINY / step;
    assert q * step == TINY;
    k := Ceil(q);
    width := k as real * step;
    RealTimesMono(q, k as real, step);
    RealTimesMono(k as real - 1.0, q, step);
    assert (k as real - 1.0) * step == width - step;
  }

  lemma {:induction false} SweepEnds(k: nat, step: real, lo: real)
    requires Spans(k, step, -lo)
    ensures YawAt(lo, step, 0) == lo && YawAt(lo, step, k) == 0.0 && YawAt(lo, step, 2 * k) == -lo
  {
    var r := k as real;
    assert (2 * k) as real == r + r;
    assert (r + r) * step == r * step + r * step;
  }

  /** Where the yaws of the coarse sweep lie: within one TINY of its start before the middle, and within
      one TINY of the middle before its end. */
  lemma {:induction false} YawsOfSweep(k: nat, step: real, lo: real, i: nat)
    requires Spans(k, step, -lo) && i <= 2 * k
    ensures var y := YawAt(lo, step, i);
            && lo <= y <= -lo && (i == 0 ==> y == lo) && (i > 0 ==> y >= lo + step) && (i < k ==> y <= -step)
            && (i == k ==> y == 0.0) && (i > k ==> y > 0.0) && (i < 2 * k ==> y <= -lo - step)
            && (i == 2 * k ==> y == -lo)
  {
    SweepEnds(k, step, lo);
    if i > 0 { YawsAscend(lo, step, 0, i); }
    if i < k { YawsAscend(lo, step, i, k); }
    if i > k { YawsAscend(lo, step, k, i); }
    if i < 2 * k { YawsAscend(lo, step, i, 2 * k); }
    hide YawAt;
  }

  /** The fit is 1 in the middle of the range and 0 at every other yaw of the sweep. */
  ghost predicate PeaksAtZero(f: real -> Fit, k: nat, step: real, lo: real) {
    forall i: nat :: i <= 2 * k ==> f(YawAt(lo, step, i)) == Fit(if i == k then 1.0 else 0.0, 0.0)
  }

  function Three(width: real): seq<Candidate> {
    [Candidate(-width, 0.0, 0.0), Candidate(0.0, 1.0, 0.0), Candidate(width, 0.0, 0.0)]
  }

  /** Which of the three the sweep has found after n yaws. */
  function Found(k: nat, n: nat): nat { if n == 0 then 0 else if n <= k then 1 else if n <= 2 * k then 2 else 3 }

  lemma {:induction false} NextFound(k: nat, step: real, lo: real, i: nat, c: Candidate)
    requires Spans(k, step, -lo) && i <= 2 * k
    requires c == Candidate(YawAt(lo, step, i), if i == k then 1.0 else 0.0, 0.0)
    ensures Added(Three(-lo)[..Found(k, i)], c) == Three(-lo)[..Found(k, i + 1)]
  {
    YawsOfSweep(k, step, lo, i);
    hide YawAt;
    var before := Three(-lo)[..Found(k, i)];
    if i == 0 {
      assert Added(before, c) == [c];
    } else if i < k {
      assert Near(before[0], c);
    } else if i == k {
      assert !Near(before[0], c);
      assert Added(before, c) == before + [c];
    } else if i < 2 * k {
      assert !Near(before[0], c) && Near(before[1], c);
    } else {
      assert !Near(before[0], c) && !Near(before[1], c);
      assert Added(before, c) == before + [c];
    }
  }

  lemma {:induction false} CoarseSweep(f: real -> Fit, k: nat, step: real, lo: real, n: nat)
    requires Spans(k, step, -lo) && PeaksAtZero(f, k, step, lo) && n <= 2 * k + 1
    ensures Swept([], f, lo, step, -lo, n) == Three(-lo)[..Found(k, n)]
  {
    if n > 0 {
      CoarseSweep(f, k, step, lo, n - 1);
      YawsOfSweep(k, step, lo, n - 1);
      var c := CandidateAt(f, YawAt(lo, step, n - 1));
      hide YawAt, Spans, Added, Found, Three;
      assert c.score == if n - 1 == k then 1.0 else 0.0;
      NextFound(k, step, lo, n - 1, c);
    }
  }

  lemma {:induction false} SizeOfSweep(k: nat, step: real, width: real)
    requires Spans(k, step, width)
    ensures SweepSize(-width, width, step) == 2 * k + 1
  {
    var q, r := (width - -width) / step, 2.0 * k as real;
    assert q * step == 2.0 * width;
    assert r * step == 2.0 * width;
    RealTimesMono(q, r, step);
    RealTimesMono(r, q, step);
  }

  lemma {:induction false} CoarseIsThree(cfg: Config, f: real -> Fit, k: nat)
    requires Spans(k, cfg.coarseStep, cfg.maxSearch) && PeaksAtZero(f, k, cfg.coarseStep, -cfg.maxSearch)
    ensures Coarse(cfg, f) == Three(cfg.maxSearch) && FirstTop(Coarse(cfg, f)) == 1
  {
    SizeOfSweep(k, cfg.coarseStep, cfg.maxSearch);
    CoarseSweep(f, k, cfg.coarseStep, -cfg.maxSearch, 2 * k + 1);
    hide Swept, SweepSize, FirstTop;
    assert IsBest(Three(cfg.maxSearch), 1);
    BestIsUnique(Three(cfg.maxSearch), FirstTop(Three(cfg.maxSearch)), 1);
  }

  /** A candidate that is no better than an element, or not near it, leaves it alone. */
  lemma {:induction false} AddedKeeps(curve: seq<Candidate>, c: Candidate, i: nat)
    requires i < |curve| && (c.score <= curve[i].score || !Near(curve[i], c))
    ensures i < |Added(curve, c)| && Added(curve, c)[i] == curve[i]
  {}

  /** No yaw of the sweep from m up to n moves the element. */
  ghost predicate Resists(x: Candidate, f: real -> Fit, lo: real, step: real, m: nat, n: nat) {
    forall j: nat :: m <= j < n ==>
      var c := CandidateAt(f, YawAt(lo, step, j)); c.score <= x.score || !Near(x, c)
  }

  lemma {:induction false} SweptKeeps(curve: seq<Candidate>, f: real -> Fit, lo: real, step: real, max: real, m: nat,
                                      n: nat, i: nat)
    requires m <= n && i < |Swept(curve, f, lo, step, max, m)|
    requires Resists(Swept(curve, f, lo, step, max, m)[i], f, lo, step, m, n)
    ensures var r := Swept(curve, f, lo, step, max, n);
            i < |r| && r[i] == Swept(curve, f, lo, step, max, m)[i]
  {
    hide YawAt, InRange, Added, Near;
    if m < n {
      SweptKeeps(curve, f, lo, step, max, m, n - 1, i);
      var before, c := Swept(curve, f, lo, step, max, n - 1), CandidateAt(f, YawAt(lo, step, n - 1));
      AddedKeeps(before, c, i);
    }
  }

  // ----- a coarse step below 2 * TINY -----

  /** A yaw between the first two of the coarse sweep that is near its first and its middle candidate. */
  ghost predicate Squeezes(x: real, k: nat, step: real, width: real) {
    Spans(k, step, width) && -width < x < step - width && x < TINY - width && x > -TINY && -width < x < 0.0
  }

  lemma {:induction false} SomeSqueeze(k: nat, step: real, width: real) returns (x: real)
    requires Spans(k, step, width) && width < 2.0 * TINY
    ensures Squeezes(x, k, step, width)
  {
    x := -(Max(width - step, width - TINY) + TINY) / 2.0;
  }

  /** The fit that prefers x to the middle of the range, and the middle to all else. */
  function Prefers(x: real): real -> Fit {
    (y: real) => Fit(if y == x then 2.0 else if y == 0.0 then 1.0 else 0.0, 0.0)
  }

  lemma {:induction false} PrefersPeaksAtZero(x: real, k: nat, step: real, width: real)
    requires Squeezes(x, k, step, width)
    ensures PeaksAtZero(Prefers(x), k, step, -width)
  {
    var lo := -width;
    forall i: nat | i <= 2 * k
      ensures Prefers(x)(YawAt(lo, step, i)) == Fit(if i == k then 1.0 else 0.0, 0.0)
    {
      YawsOfSweep(k, step, lo, i);
      hide YawAt;
    }
  }

  lemma {:induction false} SomeSweep(w: real, step: real, least: nat)
    requires step > 0.0 && w >= 0.0 && least as real * step <= 2.0 * w
    ensures SweepSize(-w, w, step) >= least + 1
  {
    var q := (w - -w) / step;
    assert q * step == 2.0 * w;
    if q < least as real { RealTimesMono(q, least as real, step); }
  }

  /** The first yaw of the refining sweep takes the place of the first coarse candidate, next to the middle one. */
  lemma {:induction false} CrowdedCurve(k: nat, coarse: real, width: real, x: real, fine: real)
    requires Squeezes(x, k, coarse, width) && coarse <= width && fine > 0.0
    ensures var cfg := Sweeping(width, coarse, true, -x, fine);
            cfg.Valid() && !Separated(Curve(cfg, Prefers(x)))
  {
    var cfg, f := Sweeping(width, coarse, true, -x, fine), Prefers(x);
    PrefersPeaksAtZero(x, k, coarse, width);
    CoarseIsThree(cfg, f, k);
    SomeSweep(-x, fine, 0);
    SqueezedSweep(f, x, k, coarse, width, fine, SweepSize(x, -x, fine));
    hide Swept, Added, SweepSize, FirstTop, YawAt, Prefers;
    var r := Curve(cfg, f);
    assert Near(r[0], r[1]);
  }

  lemma {:induction false} ShortCoarseStepBreaks(coarse: real, fine: real)
    requires 0.0 < coarse < 2.0 * TINY && fine > 0.0
    ensures !AlwaysSeparated(coarse, fine)
  {
    var k, width := SomeSpan(coarse);
    SpanIsLong(k, coarse, width);
    var x := SomeSqueeze(k, coarse, width);
    CrowdedCurve(k, coarse, width, x, fine);
    var cfg, f := Sweeping(width, coarse, true, -x, fine), Prefers(x);
    hide Prefers, Curve, Separated;
    assert cfg.Valid() && !Separated(Curve(cfg, f));
  }

  /** A concrete valid configuration and fit whose finished curve holds two yaws closer than TINY. */
  lemma {:induction false} SeparationCanBreak()
    ensures var cfg := Sweeping(1.5 * TINY, 1.5 * TINY, true, 0.75 * TINY, 1.5 * TINY);
            cfg.Valid() && !Separated(Curve(cfg, Prefers(-0.75 * TINY)))
  {
    CrowdedCurve(1, 1.5 * TINY, 1.5 * TINY, -0.75 * TINY, 1.5 * TINY);
  }

  lemma {:induction false} SpanIsLong(k: nat, step: real, width: real)
    requires Spans(k, step, width)
    ensures step <= width && (step < 2.0 * TINY ==> width < 2.0 * TINY)
  {
    RealTimesMono(1.0, k as real, step);
    if k == 1 {
      assert k as real * step == 1.0 * step;
    } else {
      RealTimesMono(2.0, k as real, step);
    }
  }

  lemma {:induction false} SqueezedSweep(f: real -> Fit, x: real, k: nat, step: real, width: real, fine: real, n: nat)
    requires Squeezes(x, k, step, width) && f == Prefers(x) && fine > 0.0 && n >= 1
    ensures var r := Swept(Three(width), f, x, fine, width, n);
            |r| >= 2 && r[0] == Candidate(x, 2.0, 0.0) && r[1] == Candidate(0.0, 1.0, 0.0)
  {
    var c, one := Candidate(x, 2.0, 0.0), Swept(Three(width), f, x, fine, width, 1);
    assert YawAt(x, fine, 0) == x;
    assert Near(Three(width)[0], c);
    assert FirstNear(Three(width), c) == 0;
    assert one == Added(Swept(Three(width), f, x, fine, width, 0), c);
    assert one == Three(width)[0 := c];
    forall j: nat | 1 <= j < n ensures f(YawAt(x, fine, j)).score <= 1.0 {
      YawsAscend(x, fine, 0, j);
    }
    hide Swept, YawAt, Added, Prefers;
    SweptKeeps(Three(width), f, x, fine, width, 1, n, 0);
    SweptKeeps(Three(width), f, x, fine, width, 1, n, 1);
  }

  // ----- a fine step below TINY -----

  /** The fit that prefers the first two yaws of the refining sweep to the middle of the range. */
  function PrefersPair(fine: real): real -> Fit {
    (y: real) => Fit(if y == -TINY || y == fine - TINY then 2.0 else if y == 0.0 then 1.0 else 0.0, 0.0)
  }

  lemma {:induction false} PairPeaksAtZero(coarse: real, fine: real)
    requires coarse >= 2.0 * TINY && 0.0 < fine < TINY
    ensures Spans(1, coarse, coarse) && PeaksAtZero(PrefersPair(fine), 1, coarse, -coarse)
  {
    var lo := -coarse;
    forall i: nat | i <= 2
      ensures PrefersPair(fine)(YawAt(lo, coarse, i)) == Fit(if i == 1 then 1.0 else 0.0, 0.0)
    {
      YawsOfSweep(1, coarse, lo, i);
      hide YawAt;
    }
  }

  /** The first yaw of the refining sweep is appended; the second takes the middle candidate's place, next to it. */
  lemma {:induction false} ShortFineStepBreaks(coarse: real, fine: real)
    requires coarse >= 2.0 * TINY && 0.0 < fine < TINY
    ensures !AlwaysSeparated(coarse, fine)
  {
    var cfg, f := Sweeping(coarse, coarse, true, TINY, fine), PrefersPair(fine);
    PairPeaksAtZero(coarse, fine);
    CoarseIsThree(cfg, f, 1);
    SomeSweep(TINY, fine, 1);
    PairedSweep(f, coarse, fine, SweepSize(-TINY, TINY, fine));
    hide Swept, Added, SweepSize, FirstTop, YawAt, PrefersPair;
    var r := Curve(cfg, f);
    assert Near(r[1], r[3]);
    assert cfg.Valid() && !Separated(r);
  }

  lemma {:induction false} PairedSweep(f: real -> Fit, coarse: real, fine: real, n: nat)
    requires coarse >= 2.0 * TINY && 0.0 < fine < TINY && f == PrefersPair(fine) && n >= 2
    ensures var r := Swept(Three(coarse), f, -TINY, fine, coarse, n);
            |r| >= 4 && r[1] == Candidate(fine - TINY, 2.0, 0.0) && r[3] == Candidate(-TINY, 2.0, 0.0)
  {
    var c, d := Candidate(-TINY, 2.0, 0.0), Candidate(fine - TINY, 2.0, 0.0);
    var none, one, two := Three(coarse), Three(coarse) + [c], (Three(coarse) + [c])[1 := d];
    assert YawAt(-TINY, fine, 0) == -TINY && YawAt(-TINY, fine, 1) == fine - TINY;
    assert !Near(none[0], c) && !Near(none[1], c) && !Near(none[2], c);
    assert Added(none, c) == one;
    assert !Near(one[0], d) && Near(one[1], d);
    assert Added(one, d) == two;
    assert Swept(none, f, -TINY, fine, coarse, 1) == Added(Swept(none, f, -TINY, fine, coarse, 0), c) == one;
    assert Swept(none, f, -TINY, fine, coarse, 2) == Added(one, d);
    hide Swept, YawAt, Added;
    SweptKeeps(none, f, -TINY, fine, coarse, 2, n, 1);
    SweptKeeps(none, f, -TINY, fine, coarse, 2, n, 3);
  }

  /** The step sizes that keep every curve separated, whatever the range, the window and the fits: a coarse
      step of at least 2 * TINY and a fine step of at least TINY, and no others. */
  lemma {:induction false} SafeStepsIff(coarse: real, fine: real)
    requires coarse > 0.0 && fine > 0.0
    ensures AlwaysSeparated(coarse, fine) <==> coarse >= 2.0 * TINY && fine >= TINY
  {
    if coarse < 2.0 * TINY {
      ShortCoarseStepBreaks(coarse, fine);
    } else if fine < TINY {
      ShortFineStepBreaks(coarse, fine);
    } else {
      forall cfg: Config, f: real -> Fit | cfg.Valid() && cfg.refine && cfg.coarseStep == coarse &&
        cfg.refineStep == fine
        ensures Separated(Curve(cfg, f))
      {
        CoarseFindsCandidates(cfg, f);
        CurveIsSeparated(cfg, f);
      }
    }
  }

  // ----- a runner-up that is skipped -----

  /** The fit halves from the first yaw to the second and is gone at the third. */
  function Declines(): real -> Fit { (y: real) => Fit(if y < 0.0 then 1.0 else if y == 0.0 then 0.5 else 0.0, 0.0) }

  function Skipping(): Config { Sweeping(TINY, TINY, false, 0.0, 1.0) }

  lemma {:induction false} DecliningCurve()
    ensures Curve(Skipping(), Declines())
            == [Candidate(-TINY, 1.0, 0.0), Candidate(0.0, 0.5, 0.0), Candidate(TINY, 0.0, 0.0)]
  {
    var a, b, c := Candidate(-TINY, 1.0, 0.0), Candidate(0.0, 0.5, 0.0), Candidate(TINY, 0.0, 0.0);
    var f := Declines();
    SizeOfSweep(1, TINY, TINY);
    SweepEnds(1, TINY, -TINY);
    assert CandidateAt(f, YawAt(-TINY, TINY, 0)) == a && CandidateAt(f, YawAt(-TINY, TINY, 1)) == b;
    assert CandidateAt(f, YawAt(-TINY, TINY, 2)) == c;
    hide YawAt, CandidateAt, SweepSize;
    assert !Near(a, b) && !Near(a, c) && !Near(b, c);
    assert Added([], a) == [a] && Added([a], b) == [a, b] && Added([a, b], c) == [a, b, c];
    hide Added;
    assert Swept([], f, -TINY, TINY, TINY, 1) == Added(Swept([], f, -TINY, TINY, TINY, 0), a) == [a];
    assert Swept([], f, -TINY, TINY, TINY, 2) == Added([a], b) == [a, b];
    assert Swept([], f, -TINY, TINY, TINY, 3) == Added([a, b], c) == [a, b, c];
  }

  lemma {:induction false} DecliningPick(rows: seq<Candidate>)
    requires rows == [Candidate(-TINY, 1.0, 0.0), Candidate(0.0, 0.5, 0.0), Candidate(TINY, 0.0, 0.0)]
    ensures Sorted(rows, ByYaw) && PickOf(rows, 3) == Pick(0, 2)
  {
    assert PickOf(rows, 1) == Pick(0, -1);
    assert PickOf(rows, 2) == Pick(0, -1);
  }

  /** A valid configuration and a fit for which the runner-up, exactly TINY from the best, is skipped: the
      summary reads a margin of 1.0 although the margin to the runner-up is 0.5. */
  lemma {:induction false} RunnerUpCanBeSkipped()
    ensures var rows := SortedBy(Curve(Skipping(), Declines()), ByYaw);
            && Skipping().Valid() && |rows| == 3 && Leads(rows, 0, 1)
            && BestOf(rows) == rows[0] && SecondOf(rows) == rows[2]
            && rows[0].score - rows[1].score == 0.5 && BestOf(rows).score - SecondOf(rows).score == 1.0
  {
    var rows := Curve(Skipping(), Declines());
    DecliningCurve();
    hide Curve, SortedBy, PickOf, Sorted;
    DecliningPick(rows);
    SortedIsKept(rows, ByYaw);
  }
}
