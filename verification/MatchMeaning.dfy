/** Why a scan is not matched, and what the verdict on a matched one says
    (include/robot_slamd/active_scan/sparse_scan_yaw_matcher.hpp). */
module MatchMeaning {
  import opened Angles
  import opened Sequences
  import opened YawCurve
  import opened YawMatcher
  import opened YawMatching
  import C = Collector

  // ----- refusals -----

  /** The grounds for refusing a scan, in the order in which they are looked at. */
  datatype Ground =
    | NotComplete | CompleteUnwanted | UsefulUnwanted | Useless | FewSamples | FewBins | LittleSeen | ManyEmptyBins
    | EmptyMap | FewSelected

  function Rank(g: Ground): nat {
    match g
    case NotComplete => 0
    case CompleteUnwanted => 1
    case UsefulUnwanted => 2
    case Useless => 3
    case FewSamples => 4
    case FewBins => 5
    case LittleSeen => 6
    case ManyEmptyBins => 7
    case EmptyMap => 8
    case FewSelected => 9
  }

  function NameOf(g: Ground): Reason {
    match g
    case NotComplete => RequireCompleteSession
    case CompleteUnwanted => CompletedScanDisabled
    case UsefulUnwanted => UsefulScanDisabled
    case Useless => ScanNotUseful
    case FewSamples | FewSelected => InsufficientSamples
    case FewBins => InsufficientBins
    case LittleSeen => InsufficientYawCoverage
    case ManyEmptyBins => LowValidBinRatio
    case EmptyMap => NoMapSupport
  }

  ghost predicate Speaks(cfg: Config, scan: C.Record, occupied: nat, known: nat, g: Ground)
    requires cfg.maxSamples > 0
  {
    var x := scan.summary;
    match g
    case NotComplete => !x.complete && cfg.requireComplete
    case CompleteUnwanted => x.complete && !cfg.onCompleted
    case UsefulUnwanted => x.useful && !x.complete && !cfg.onUseful
    case Useless => !(x.useful || x.complete)
    case FewSamples => cfg.minValidSamples > x.valid
    case FewBins => cfg.minValidBins > x.validBins
    case LittleSeen => cfg.minObserved > x.observed
    case ManyEmptyBins =>
      if x.totalBins > 0 then cfg.minBinRatio * x.totalBins as real > x.validBins as real else cfg.minBinRatio > 0.0
    case EmptyMap => occupied * known == 0
    case FewSelected => cfg.minValidSamples > |SelectedSamples(scan.samples, cfg.maxSamples)|
  }

  ghost predicate SpeaksFirst(cfg: Config, scan: C.Record, occupied: nat, known: nat, g: Ground)
    requires cfg.maxSamples > 0
  {
    && Speaks(cfg, scan, occupied, known, g)
    && forall other :: Speaks(cfg, scan, occupied, known, other) ==> Rank(g) <= Rank(other)
  }

  lemma {:induction false} RatioIff(a: nat, b: nat, limit: real)
    requires b > 0
    ensures a as real / b as real < limit <==> limit * b as real > a as real
  {
    var q := a as real / b as real;
    assert q * b as real == a as real;
    if q < limit { RealTimesMono(q, limit, b as real); } else { RealTimesMono(limit, q, b as real); }
  }

  /** The ground that a refusal is on. */
  ghost function GroundOf(cfg: Config, scan: C.Record, occupied: nat, known: nat): Ground {
    var x := scan.summary;
    if cfg.requireComplete && !x.complete then NotComplete
    else if x.complete && !cfg.onCompleted then CompleteUnwanted
    else if !x.complete && x.useful && !cfg.onUseful then UsefulUnwanted
    else if !x.complete && !x.useful then Useless
    else if x.valid < cfg.minValidSamples then FewSamples
    else if x.validBins < cfg.minValidBins then FewBins
    else if x.observed < cfg.minObserved then LittleSeen
    else if BinRatio(x) < cfg.minBinRatio then ManyEmptyBins
    else if occupied == 0 || known == 0 then EmptyMap
    else FewSelected
  }

  lemma {:induction false} GroundMeans(cfg: Config, scan: C.Record, occupied: nat, known: nat, other: Ground)
    requires cfg.maxSamples > 0
    ensures var g, why := GroundOf(cfg, scan, occupied, known), Refusal(cfg, scan, occupied, known);
            && (why == Ok ==> !Speaks(cfg, scan, occupied, known, other))
            && (why != Ok ==> why == NameOf(g) && Speaks(cfg, scan, occupied, known, g))
            && (Speaks(cfg, scan, occupied, known, other) ==> Rank(g) <= Rank(other))
  {
    var x := scan.summary;
    if x.totalBins > 0 { RatioIff(x.validBins, x.totalBins, cfg.minBinRatio); }
    EmptyIff(occupied, known);
    hide SelectedSamples;
  }

  lemma {:induction false} EmptyIff(a: nat, b: nat)
    ensures a * b == 0 <==> a == 0 || b == 0
  {
    if a > 0 && b > 0 { assert a * b >= a; }
  }

  /** A scan is matched exactly when nothing speaks against it; else it is refused for the first ground there is. */
  lemma {:induction false} RefusalMeans(cfg: Config, scan: C.Record, occupied: nat, known: nat)
    requires cfg.maxSamples > 0
    ensures var why := Refusal(cfg, scan, occupied, known);
            if why == Ok then forall g :: !Speaks(cfg, scan, occupied, known, g)
            else exists g :: SpeaksFirst(cfg, scan, occupied, known, g) && why == NameOf(g)
  {
    hide Refusal, Speaks, Rank, GroundOf, NameOf;
    var g := GroundOf(cfg, scan, occupied, known);
    forall other
      ensures Refusal(cfg, scan, occupied, known) == Ok ==> !Speaks(cfg, scan, occupied, known, other)
      ensures Refusal(cfg, scan, occupied, known) != Ok ==> Speaks(cfg, scan, occupied, known, g)
      ensures Speaks(cfg, scan, occupied, known, other) ==> Rank(g) <= Rank(other)
    {
      GroundMeans(cfg, scan, occupied, known, other);
    }
    GroundMeans(cfg, scan, occupied, known, g);
    assert Refusal(cfg, scan, occupied, known) != Ok ==> SpeaksFirst(cfg, scan, occupied, known, g);
  }

  // ----- the verdict on a matched scan -----

  /** The middle score: the mean of the two in the middle of the sorted scores, which are one for an odd number. */
  lemma {:induction false} MedianMeans(curve: seq<Candidate>)
    requires curve != []
    ensures var s, n := SortedBy(curve, ByScore), |curve|;
            && Sorted(s, ByScore) && multiset(s) == multiset(curve) && |s| == n
            && 2.0 * Median(curve) == s[(n - 1) / 2].score + s[n / 2].score
  {
    hide SortedBy;
  }

  /** How flat a curve is: the share of the best score that the median reaches, as far as that is from 0 to 1. */
  ghost predicate IsFlatness(flatness: real, best: real, median: real) {
    var scale := if Abs(best) >= TINY then Abs(best) else TINY;
    var rise := best - median;
    if rise >= scale then flatness == 0.0
    else if rise <= 0.0 then flatness == 1.0
    else (1.0 - flatness) * scale == rise
  }

  lemma {:induction false} PositiveProduct(x: real, y: real)
    requires x > 0.0 && y > 0.0
    ensures x * y > 0.0
  {}

  lemma {:induction false} FlatnessMeans(rows: seq<Candidate>, best: real)
    ensures IsFlatness(Flatness(rows, best), best, Median(rows))
  {
    hide Median;
    var scale, rise := Max(Abs(best), TINY), best - Median(rows);
    var q := rise / scale;
    assert q * scale == rise;
    if q < 0.0 { PositiveProduct(-q, scale); }
    if q > 1.0 { PositiveProduct(q - 1.0, scale); }
    if 0.0 < q { PositiveProduct(q, scale); }
    if q < 1.0 { PositiveProduct(1.0 - q, scale); }
    assert q == 1.0 ==> rise == scale;
    assert 1.0 - Flatness(rows, best) == Clamp(q, 0.0, 1.0);
    SameTimes(1.0 - Flatness(rows, best), q, scale);
  }

  lemma {:induction false} SameTimes(x: real, y: real, scale: real)
    ensures x == y ==> x * scale == y * scale
  {}

  /** The reason of a matched scan names the first shortcoming of its curve. */
  lemma {:induction false} VerdictMeans(cfg: Config, f: real -> Fit, m: MatchSummary, rows: seq<Candidate>)
    requires cfg.Valid() && Judged(cfg, f, m, rows)
    ensures var low, close := cfg.minBestScore > m.best.score, cfg.minMargin > m.best.score - m.second.score;
            var poor, flat := cfg.minInlierRatio > m.best.inlierRatio, m.flatness > cfg.maxFlatness;
            && m.margin == m.best.score - m.second.score && (m.flat <==> flat)
            && IsFlatness(m.flatness, m.best.score, Median(rows))
            && (m.reason == LowBestScore <==> low) && (m.reason == LowScoreMargin <==> close && !low)
            && (m.reason == LowInlierRatio <==> poor && !close && !low)
            && (m.reason == CurveFlat <==> flat && !poor && !close && !low)
            && (m.reason == Multimodal <==> m.multimodal && !flat && !poor && !close && !low)
            && (m.reason == Ok <==> !m.multimodal && !flat && !poor && !close && !low) && (m.usable <==> m.reason == Ok)
  {
    FlatnessMeans(rows, m.best.score);
    hide Flatness, IsFlatness, Median, HasRival, Picks, Curve, SortedBy, PeaksUpTo;
  }

  // ----- the samples, the yaws and the peaks -----

  /** `at` holds, in order, the positions of all valid hits. */
  ghost predicate IsSelection(samples: seq<C.Sample>, at: seq<nat>) {
    && (forall j, k :: 0 <= j < k < |at| ==> at[j] < at[k])
    && forall i: nat :: i < |samples| ==> (i in at <==> samples[i].valid && samples[i].hit)
  }

  ghost predicate AreAt(samples: seq<C.Sample>, at: seq<nat>, hits: seq<C.Sample>) {
    |hits| == |at| && forall k :: 0 <= k < |at| ==> at[k] < |samples| && hits[k] == samples[at[k]]
  }

  lemma {:induction false} SelectionGrows(samples: seq<C.Sample>, at: seq<nat>, hits: seq<C.Sample>)
    requires samples != [] && IsSelection(samples[..|samples| - 1], at) && AreAt(samples[..|samples| - 1], at, hits)
    ensures var last := |samples| - 1;
            IsSelection(samples, if samples[last].valid && samples[last].hit then at + [last] else at)
  {
    var last := |samples| - 1;
    assert forall i: nat :: i < last ==> samples[i] == samples[..last][i];
    assert last in at + [last] && last !in at;
  }

  lemma {:induction false} HitsGrow(samples: seq<C.Sample>, at: seq<nat>, hits: seq<C.Sample>)
    requires samples != [] && AreAt(samples[..|samples| - 1], at, hits)
    ensures AreAt(samples, at, hits) && AreAt(samples, at + [|samples| - 1], hits + [samples[|samples| - 1]])
  {}

  lemma {:induction false} HitsNext(samples: seq<C.Sample>)
    requires samples != []
    ensures var rest, x := ValidHits(samples[..|samples| - 1]), samples[|samples| - 1];
            ValidHits(samples) == if x.valid && x.hit then rest + [x] else rest
  {}

  /** The samples used are the valid hits, all of them and in order. */
  lemma {:induction false} ValidHitsMean(samples: seq<C.Sample>) returns (at: seq<nat>)
    ensures IsSelection(samples, at) && AreAt(samples, at, ValidHits(samples))
  {
    at := [];
    if samples != [] {
      var last := |samples| - 1;
      at := ValidHitsMean(samples[..last]);
      hide IsSelection, AreAt, ValidHits;
      SelectionGrows(samples, at, ValidHits(samples[..last]));
      HitsGrow(samples, at, ValidHits(samples[..last]));
      HitsNext(samples);
      if samples[last].valid && samples[last].hit { at := at + [last]; }
    }
  }

  lemma {:induction false} EndsNear(q: real, k: real, step: real, lo: real, hi: real)
    requires step > 0.0 && q * step == hi - lo && q - 0.5 < k <= q + 0.5
    ensures hi - 0.5 * step < lo + k * step <= hi + 0.5 * step
  {
    var d := k - q;
    assert k * step == q * step + d * step;
    RealTimesMono(-0.5, d, step);
    RealTimesMono(d, 0.5, step);
    assert k * step == hi - lo + d * step;
    assert -0.5 * step < d * step;
    assert -(0.5 * step) < d * step;
    assert d * step <= 0.5 * step;
  }

  /** A sweep starts at its lower end and stops within half a step of its upper one. */
  lemma {:induction false} SweepSpans(lo: real, hi: real, step: real)
    requires step > 0.0 && lo <= hi
    ensures var n := SweepSize(lo, hi, step);
            && n > 0 && YawAt(lo, step, 0) == lo
            && hi - 0.5 * step < YawAt(lo, step, n - 1) <= hi + 0.5 * step
  {
    var q := (hi - lo) / step;
    assert q * step == hi - lo;
    var k := (q + 0.5).Floor;
    assert q >= 0.0;
    EndsNear(q, k as real, step, lo, hi);
    assert YawAt(lo, step, 0) == lo;
  }

  ghost predicate IsTop(curve: seq<Candidate>, i: nat)
    requires i < |curve|
  {
    && (i > 0 ==> curve[i - 1].score <= curve[i].score)
    && (i + 1 < |curve| ==> curve[i + 1].score <= curve[i].score)
  }

  ghost function Tops(curve: seq<Candidate>, n: nat): set<nat>
    requires n <= |curve|
  {
    set i: nat | i < n && IsTop(curve, i)
  }

  lemma {:induction false} TopsGrow(curve: seq<Candidate>, n: nat)
    requires 0 < n <= |curve|
    ensures |Tops(curve, n)| == |Tops(curve, n - 1)| + if IsPeak(curve, n - 1) then 1 else 0
  {
    var before := Tops(curve, n - 1);
    assert IsPeak(curve, n - 1) <==> IsTop(curve, n - 1);
    hide IsPeak, IsTop;
    assert Tops(curve, n) == if IsTop(curve, n - 1) then before + {n - 1} else before;
  }

  /** The number of peaks is that of the elements not below either neighbour. */
  lemma {:induction false} PeaksMean(curve: seq<Candidate>, n: nat)
    requires n <= |curve|
    ensures PeaksUpTo(curve, n) == |Tops(curve, n)|
  {
    hide IsPeak, IsTop;
    if n > 0 {
      PeaksMean(curve, n - 1);
      TopsGrow(curve, n);
    }
  }

  // ----- the report on a scan -----

  /** A scan that something speaks against is reported as not attempted, for the first such ground, with no curve.
      Any other is reported as attempted, with the finished curve of its selected samples in order of yaw. */
  lemma {:induction false} MatchedMeans(cfg: Config, scan: C.Record, occupied: nat, known: nat,
                                        fit: seq<C.Sample> -> (real -> Fit), m: MatchSummary)
    requires cfg.Valid() && Matched(cfg, scan, occupied, known, fit, m)
    ensures var rows, f := RowsOf(cfg, scan, occupied, known, fit), fit(SelectedSamples(scan.samples, cfg.maxSamples));
            if exists g :: Speaks(cfg, scan, occupied, known, g) then
              && rows == [] && !m.attempted && !m.usable && m.scanId == scan.summary.scanId
              && !m.flat && !m.multimodal && m.margin == m.flatness == 0.0 && m.peaks == 0
              && exists g :: SpeaksFirst(cfg, scan, occupied, known, g) && m.reason == NameOf(g)
            else
              && m.attempted && m.scanId == scan.summary.scanId && Judged(cfg, f, m, rows)
              && Sorted(rows, ByYaw) && multiset(rows) == multiset(Curve(cfg, f))
  {
    RefusalMeans(cfg, scan, occupied, known);
    hide Refusal, Speaks, Rank, NameOf, Curve, SelectedSamples, SortedBy;
    if Refusal(cfg, scan, occupied, known) == Ok {
      JudgedIsAttempt(cfg, fit(SelectedSamples(scan.samples, cfg.maxSamples)), m,
                      RowsOf(cfg, scan, occupied, known, fit));
    }
    hide Judged;
  }

  lemma {:induction false} JudgedIsAttempt(cfg: Config, f: real -> Fit, m: MatchSummary, rows: seq<Candidate>)
    requires cfg.Valid() && Judged(cfg, f, m, rows)
    ensures m.attempted
  {
    hide Flatness, Median, HasRival, Picks, Curve, SortedBy, PeaksUpTo;
  }

  /** Positions of the usable summaries. */
  ghost function Usable(made: seq<MatchSummary>): set<nat> { set k: nat | k < |made| && made[k].usable }

  /** The counter of usable matches grows by the number of usable summaries. */
  lemma {:induction false} UsableAreCounted(t: Stats, made: seq<MatchSummary>)
    ensures Counted(t, made).usable == t.usable + |Usable(made)|
  {
    if made != [] {
      var last := |made| - 1;
      UsableAreCounted(t, made[..last]);
      assert Usable(made) == if made[last].usable then Usable(made[..last]) + {last} else Usable(made[..last]);
    }
  }
}
