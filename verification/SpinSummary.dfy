/** What the spin-scan matcher concludes from its curve, and how samples find their bin
    (include/robot_slamd/mapping/spin_scan_localization.hpp). */
module SpinSummary {
  import opened Angles
  import opened Sequences
  import opened SpinMatcher

  // ----- percentiles -----

  ghost predicate Ascends(s: seq<real>) { forall i, j :: 0 <= i <= j < |s| ==> s[i] <= s[j] }

  function Mix(a: real, b: real, t: real): real { a * (1.0 - t) + b * t }

  /** Linear interpolation at a position between 0 and |s| - 1. */
  function Interpolate(s: seq<real>, pos: real): real
    requires s != [] && 0.0 <= pos <= (|s| - 1) as real
  {
    var lo, hi := pos.Floor, Ceil(pos);
    if lo == hi then s[lo]
    else
      Mix(s[lo], s[hi], pos - lo as real)
  }

  function Position(q: real, n: nat): (r: real)
    requires 0.0 <= q <= 1.0
    ensures 0.0 <= r <= n as real
  {
    assert (1.0 - q) * n as real >= 0.0;
    q * n as real
  }

  lemma {:induction false} PositionGrows(p: real, q: real, n: nat)
    requires 0.0 <= p <= q <= 1.0
    ensures Position(p, n) <= Position(q, n)
  {
    assert (q - p) * n as real >= 0.0;
  }

  function Percentile(s: seq<real>, q: real): real
    requires 0.0 <= q <= 1.0
  {
    if s == [] then 0.0 else Interpolate(s, Position(q, |s| - 1))
  }

  lemma {:induction false} MixGrows(a: real, b: real, t: real, u: real)
    requires a <= b && 0.0 <= t <= u <= 1.0
    ensures a <= Mix(a, b, t) <= Mix(a, b, u) <= b
  {
    var d := b - a;
    assert Mix(a, b, t) == a + d * t && Mix(a, b, u) == a + d * u;
    assert 0.0 <= d * t;
    assert d * u - d * t == d * (u - t) >= 0.0;
    assert d - d * u == d * (1.0 - u) >= 0.0;
  }

  /** A value between two neighbours of the sorted sequence. */
  lemma {:induction false} BetweenNeighbours(s: seq<real>, pos: real)
    requires s != [] && Ascends(s) && 0.0 <= pos <= (|s| - 1) as real
    ensures s[pos.Floor] <= Interpolate(s, pos) <= s[Ceil(pos)]
  {
    hide Mix;
    var lo, hi := pos.Floor, Ceil(pos);
    if lo != hi {
      MixGrows(s[lo], s[hi], pos - lo as real, pos - lo as real);
    }
  }

  lemma {:induction false} InterpolateGrows(s: seq<real>, p: real, q: real)
    requires s != [] && Ascends(s) && 0.0 <= p <= q <= (|s| - 1) as real
    ensures Interpolate(s, p) <= Interpolate(s, q)
  {
    hide Mix;
    BetweenNeighbours(s, p);
    BetweenNeighbours(s, q);
    var lo, hi := p.Floor, Ceil(p);
    if p < q {
      if q.Floor >= hi {
        assert s[hi] <= s[q.Floor];
      } else {
        assert q.Floor == lo && Ceil(q) == lo + 1;
        MixGrows(s[lo], s[lo + 1], p - lo as real, q - lo as real);
      }
    }
  }

  /** Percentiles never leave the range of the values, and a higher percentile is never smaller. */
  lemma {:induction false} PercentilesAreOrdered(s: seq<real>, p: real, q: real)
    requires s != [] && Ascends(s) && 0.0 <= p <= q <= 1.0
    ensures s[0] <= Percentile(s, p) <= Percentile(s, q) <= s[|s| - 1]
  {
    hide Position, Interpolate;
    var x, y := Position(p, |s| - 1), Position(q, |s| - 1);
    PositionGrows(p, q, |s| - 1);
    BetweenNeighbours(s, x);
    BetweenNeighbours(s, y);
    InterpolateGrows(s, x, y);
  }

  /** Percentiles interpolate: at a position k + t between two neighbours the value lies the share t of the way from
      one to the other. */
  lemma {:induction false} PercentileMeans(s: seq<real>, q: real, k: nat, t: real)
    requires 0.0 <= q <= 1.0 && k < |s| && 0.0 <= t < 1.0 && q * (|s| - 1) as real == k as real + t
    ensures t > 0.0 ==> k + 1 < |s|
    ensures Percentile(s, q) == if t == 0.0 then s[k] else s[k] + t * (s[k + 1] - s[k])
  {
    var pos := Position(q, |s| - 1);
    assert pos.Floor == k;
    if t > 0.0 {
      assert k + 1 < |s|;
      assert Ceil(pos) == k + 1;
      MixMeans(s[k], s[k + 1], t);
    }
  }

  lemma {:induction false} MixMeans(a: real, b: real, t: real)
    ensures Mix(a, b, t) == a + t * (b - a)
  {}

  method PercentileSorted(sorted: seq<real>, q: real) returns (r: real)
    requires 0.0 <= q <= 1.0
    ensures r == Percentile(sorted, q)
  {
    if |sorted| == 0 { return 0.0; }
    var pos := Position(q, |sorted| - 1);
    var lo, hi := pos.Floor, Ceil(pos);
    if lo == hi { return sorted[lo]; }
    var t := pos - lo as real;
    r := sorted[lo] * (1.0 - t) + sorted[hi] * t;
  }

  function Itself(x: real): real { x }

  function ResidualsOf(curve: seq<Point>): seq<real> {
    seq(|curve|, i requires 0 <= i < |curve| => curve[i].residual)
  }

  /** The residuals of the curve in ascending order. */
  function Residuals(curve: seq<Point>): (r: seq<real>)
    ensures |r| == |curve| && Ascends(r)
  {
    SortedBy(ResidualsOf(curve), Itself)
  }

  /** Sorting neither loses nor invents a residual; the first of the sorted ones is the least and the last the
      greatest of the curve. */
  lemma {:induction false} FirstIsLeast(curve: seq<Point>)
    requires curve != []
    ensures var s := Residuals(curve);
            && multiset(s) == multiset(ResidualsOf(curve))
            && forall i :: 0 <= i < |curve| ==> s[0] <= curve[i].residual <= s[|s| - 1]
  {
    hide SortedBy;
    var all, s := ResidualsOf(curve), Residuals(curve);
    SameElements(all, s);
    forall i | 0 <= i < |curve| ensures s[0] <= curve[i].residual <= s[|s| - 1] {
      assert all[i] in s;
    }
  }

  // ----- the verdict -----

  datatype Config = Config(minValidBins: int, minBinRatio: real, minReliability: real, minMargin: real, sharpness: real,
                           search: real, step: real, gap: real, window: real)
  {
    /** What validate_config demands of the spin_scan_localization section. */
    ghost predicate Valid() {
      && minValidBins >= 1 && 0.0 <= minBinRatio <= 1.0 && 0.0 <= minReliability <= 1.0 && minMargin >= 0.0
      && sharpness >= 0.0 && search > 0.0 && step > 0.0 && gap > 0.0 && window >= 0.0
    }
  }

  datatype Reason = NotEnoughBins | FlatCurve | Multimodal | BestAtSearchEdge | LowMargin | Complete

  datatype Verdict = Verdict(flat: bool, edge: bool, reliability: real, usable: bool, reason: Reason)

  function Reliability(cfg: Config, complete: bool, enoughBins: bool, r: Result, flat: bool, edge: bool): real {
    if !complete || !r.matched || !enoughBins then 0.0
    else
      var a := 1.0 - (if flat then 0.4 else 0.0);
      var b := a - (if r.multimodal then 0.4 else 0.0);
      var c := b - (if edge then 0.3 else 0.0);
      Clamp(c - (if r.margin < cfg.minMargin then 0.3 else 0.0), 0.0, 1.0)
  }

  predicate EnoughBins(cfg: Config, validBins: int, ratio: real) {
    validBins >= cfg.minValidBins && ratio >= cfg.minBinRatio
  }

  function Sharpness(curve: seq<Point>): real
    requires curve != []
  {
    Percentile(Residuals(curve), 0.5) - Residuals(curve)[0]
  }

  function JudgeOf(cfg: Config, complete: bool, validBins: int, binRatio: real, r: Result, curve: seq<Point>): Verdict
    requires curve != []
  {
    var enoughBins := EnoughBins(cfg, validBins, binRatio);
    var flat := Sharpness(curve) < cfg.sharpness;
    var edge := Abs(Abs(r.best.offset) - cfg.search) <= cfg.step * 0.5 + 0.000000001;
    var reliability := Reliability(cfg, complete, enoughBins, r, flat, edge);
    var usable := complete && r.matched && enoughBins && reliability >= cfg.minReliability && !flat &&
      !r.multimodal && !edge
                  && r.margin >= cfg.minMargin;
    var reason := if usable then Complete else if flat then FlatCurve else if r.multimodal then Multimodal
                  else if edge then BestAtSearchEdge else if r.margin < cfg.minMargin then LowMargin else Complete;
    Verdict(flat, edge, reliability, usable, reason)
  }

  /** The reliability lies in [0, 1], and asking for a minimum of it adds nothing: a match that passes the
      other tests has reliability 1, and one that fails them is refused whatever the minimum. Without a
      minimum sharpness, no curve counts as flat. */
  lemma {:induction false} ReliabilityIsRedundant(cfg: Config, complete: bool, validBins: int, binRatio: real,
                                                  r: Result, curve: seq<Point>)
    requires cfg.Valid() && curve != []
    ensures var v := JudgeOf(cfg, complete, validBins, binRatio, r, curve);
            && 0.0 <= v.reliability <= 1.0
            && (v.usable <==>
                (complete && r.matched && EnoughBins(cfg, validBins, binRatio) && !v.flat && !r.multimodal && !v.edge
                 && r.margin >= cfg.minMargin))
            && (v.usable ==> v.reliability == 1.0)
            && (cfg.sharpness == 0.0 ==> !v.flat)
  {
    var s := Residuals(curve);
    PercentilesAreOrdered(s, 0.0, 0.5);
    hide Percentile, Residuals;
  }

  ghost function Deducts(shortcoming: bool, points: real): real { if shortcoming then points else 0.0 }

  /** The curve is steep enough: its middle residual exceeds the least by the amount asked for. */
  ghost predicate IsSharp(cfg: Config, curve: seq<Point>)
    requires curve != []
  {
    Percentile(Residuals(curve), 0.5) >= cfg.sharpness + Residuals(curve)[0]
  }

  /** The best offset lies at one of the two ends of the search. */
  ghost predicate IsAtEnd(cfg: Config, offset: real) {
    var reach := cfg.step / 2.0 + 0.000000001;
    || cfg.search - reach <= offset <= cfg.search + reach || -cfg.search - reach <= offset <= -cfg.search + reach
  }

  /** What the verdict on a match says: how flatness and the edge are told, what the reliability deducts for each
      shortcoming, and that the reason names the first of them. */
  lemma {:induction false} VerdictMeans(cfg: Config, complete: bool, validBins: int, binRatio: real, r: Result,
                                        curve: seq<Point>)
    requires cfg.Valid() && curve != []
    ensures var v := JudgeOf(cfg, complete, validBins, binRatio, r, curve);
            var trusted := complete && r.matched && cfg.minValidBins <= validBins && cfg.minBinRatio <= binRatio;
            var close := cfg.minMargin > r.margin;
            var left := 1.0 - Deducts(v.flat, 0.4) - Deducts(r.multimodal, 0.4) - Deducts(v.edge, 0.3)
                        - Deducts(close, 0.3);
            && (v.flat <==> !IsSharp(cfg, curve)) && (v.edge <==> IsAtEnd(cfg, r.best.offset))
            && v.reliability == (if !trusted || left < 0.0 then 0.0 else left)
            && (v.usable ==> trusted) && (trusted && !v.flat && !r.multimodal && !v.edge && !close ==> v.usable)
            && (v.reason == FlatCurve <==> v.flat) && (v.reason == Multimodal <==> r.multimodal && !v.flat)
            && (v.reason == BestAtSearchEdge <==> v.edge && !r.multimodal && !v.flat)
            && (v.reason == LowMargin <==> close && !v.edge && !r.multimodal && !v.flat)
            && (v.reason == Complete <==> !close && !v.edge && !r.multimodal && !v.flat)
  {
    hide Percentile, Residuals;
    ReliabilityIsRedundant(cfg, complete, validBins, binRatio, r, curve);
  }

  // ----- bins -----

  /** The sample's bin: centres lie at multiples of the width 360 / n, starting at 0. */
  function NearestBin(bearing: real, n: nat): (i: int)
    requires n >= 1 && 0.0 <= bearing < 360.0
    ensures 0 <= i < n
  {
    var width := 360.0 / n as real;
    ((bearing + width * 0.5) / width).Floor % n
  }

  lemma {:induction false} HalfWidths(bearing: real, width: real, n: real, k: real)
    requires width > 0.0 && width * n == 360.0 && 0.0 <= bearing < 360.0
    requires k <= (bearing + width * 0.5) / width < k + 1.0
    ensures -width * 0.5 <= bearing - k * width < width * 0.5 && -1.0 < k < n + 1.0
  {
    var q := (bearing + width * 0.5) / width;
    assert q * width == bearing + width * 0.5;
    assert 0.0 <= (q - k) * width == q * width - k * width;
    assert 0.0 < (k + 1.0 - q) * width == k * width + width - q * width;
    FactorIsPositive(k + 1.0, width);
    assert (n + 1.0 - k) * width == 360.0 + width - k * width;
    FactorIsPositive(n + 1.0 - k, width);
  }

  lemma {:induction false} FactorIsPositive(a: real, w: real)
    requires w > 0.0 && a * w > 0.0
    ensures a > 0.0
  {}

  /** Every bearing goes to the bin whose centre is nearest on the circle: at most half a width away,
      up to one whole turn. */
  lemma {:induction false} BinIsNearest(bearing: real, n: nat)
    requires n >= 1 && 0.0 <= bearing < 360.0
    ensures var i, width := NearestBin(bearing, n), 360.0 / n as real;
            Abs(bearing - i as real * width) <= width * 0.5 || (i == 0 && Abs(bearing - 360.0) <= width * 0.5)
  {
    var width := 360.0 / n as real;
    assert width * n as real == 360.0;
    var k := ((bearing + width * 0.5) / width).Floor;
    HalfWidths(bearing, width, n as real, k as real);
    WrapsOnce(k, n);
    if k == n {
      assert k as real * width == 360.0;
    }
  }

  lemma {:induction false} WrapsOnce(k: int, n: nat)
    requires 0 <= k <= n && n >= 1
    ensures k % n == if k == n then 0 else k
  {}
}
