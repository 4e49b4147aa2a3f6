/** What the sparse-scan yaw matcher reads off a finished curve and how it decides
    (include/robot_slamd/active_scan/sparse_scan_yaw_matcher.hpp). */
module YawMatcher {
  import opened Angles
  import opened Sequences
  import opened YawCurve
  import L = LineCells
  import T = ChunkAddress
  import C = Collector

  // ----- downsampling -----

  function ValidHits(samples: seq<C.Sample>): seq<C.Sample> {
    if samples == [] then []
    else
      var rest, x := ValidHits(samples[..|samples| - 1]), samples[|samples| - 1];
      if x.valid && x.hit then rest + [x] else rest
  }

  /** Every step-th element from position i on. */
  function Strided<T>(s: seq<T>, i: nat, step: nat): seq<T>
    requires step > 0
    decreases |s| - i
  {
    if i >= |s| then [] else [s[i]] + Strided(s, i + step, step)
  }

  function Stride(n: nat, max: nat): (step: nat)
    requires max > 0
    ensures step >= 1
  {
    var q := Ceil((n as real) / (max as real));
    if q < 1 then 1 else q
  }

  function SelectedSamples(samples: seq<C.Sample>, max: nat): seq<C.Sample>
    requires max > 0
  {
    var v := ValidHits(samples);
    if |v| <= max then v else Strided(v, 0, Stride(|v|, max))
  }

  /** Multiplication under a name, so that proofs can leave it closed. */
  function Product(a: real, b: real): real { a * b }

  lemma {:induction false} RealTimesMono(a: real, b: real, c: real)
    requires a <= b && c > 0.0
    ensures a * c <= b * c && (a < b ==> a * c < b * c)
  {
    var d := b - a;
    assert 0.0 <= d * c == b * c - a * c;
    if a < b {
      assert d * c > 0.0;
    }
  }

  lemma {:induction false} ProductGrows(a: real, b: real, c: real)
    requires a <= b && c > 0.0
    ensures Product(a, c) <= Product(b, c) && (a < b ==> Product(a, c) < Product(b, c))
  {
    RealTimesMono(a, b, c);
  }

  lemma {:induction false} ProductNext(a: real, c: real)
    ensures Product(a + 1.0, c) == Product(a, c) + c
  {}

  lemma {:induction false} ProductOfQuotient(n: real, max: real)
    requires max > 0.0
    ensures Product(n / max, max) == n
  {}

  lemma {:induction false} ProductIsTimes(k: nat, size: nat)
    ensures Product(k as real, size as real) == T.Times(k, size) as real
  {
    hide Product;
    if k > 0 {
      ProductIsTimes(k - 1, size);
      ProductNext((k - 1) as real, size as real);
      assert (k - 1) as real + 1.0 == k as real;
    } else {
      ProductOfZero(size as real);
    }
  }

  lemma {:induction false} ProductOfZero(c: real)
    ensures Product(0.0, c) == 0.0
  {}

  lemma {:induction false} QuotientBounds(n: real, max: real, step: real)
    requires max > 0.0 && n / max <= step < n / max + 1.0
    ensures n <= Product(step, max) < n + max
  {
    hide Product;
    var q := n / max;
    ProductOfQuotient(n, max);
    ProductNext(q, max);
    ProductGrows(q, step, max);
    ProductGrows(step, q + 1.0, max);
  }

  /** The stride spans all n elements in max strides, with less than max to spare. */
  lemma {:induction false} StrideBounds(n: nat, max: nat)
    requires max > 0 && n > max
    ensures n <= T.Times(Stride(n, max), max) < n + max
  {
    var q, step := (n as real) / (max as real), Stride(n, max);
    assert q > 1.0 by {
      ProductOfQuotient(n as real, max as real);
      if q <= 1.0 {
        ProductGrows(q, 1.0, max as real);
      }
    }
    hide Product;
    assert q <= step as real < q + 1.0;
    QuotientBounds(n as real, max as real, step as real);
    ProductIsTimes(step, max);
  }

  /** A strided selection takes just enough elements to reach the end. */
  lemma {:induction false} StridedSize<E>(s: seq<E>, i: nat, step: nat)
    requires step > 0 && i <= |s|
    ensures |s| - i <= T.Times(|Strided(s, i, step)|, step) < |s| - i + step
    decreases |s| - i
  {
    if i < |s| {
      if i + step <= |s| {
        StridedSize(s, i + step, step);
      }
      var k := |Strided(s, i + step, step)|;
      assert |Strided(s, i, step)| == k + 1;
      assert T.Times(k + 1, step) == T.Times(k, step) + step;
    }
  }

  lemma {:induction false} StridedAt<T>(s: seq<T>, i: nat, step: nat, k: nat)
    requires step > 0 && k < |Strided(s, i, step)|
    ensures i + k * step < |s| && Strided(s, i, step)[k] == s[i + k * step]
    decreases k
  {
    if k > 0 {
      StridedAt(s, i + step, step, k - 1);
      assert i + step + (k - 1) * step == i + k * step;
    }
  }

  /** Too many samples are thinned to an even stride that keeps at most the allowed number and more
      than half of it. */
  lemma {:induction false} ThinnedSize(samples: seq<C.Sample>, max: nat)
    requires max > 0
    ensures var v, s := ValidHits(samples), SelectedSamples(samples, max);
            && |s| <= max && (|v| <= max ==> s == v) && (|v| > max ==> 2 * |s| > max)
  {
    var v := ValidHits(samples);
    if |v| > max {
      var step := Stride(|v|, max);
      var k := |Strided(v, 0, step)|;
      StrideBounds(|v|, max);
      StridedSize(v, 0, step);
      ThinningArithmetic(|v|, max, step, k);
    }
  }

  lemma {:induction false} TimesGrows(a: nat, b: nat, size: nat)
    requires a <= b
    ensures T.Times(a, size) <= T.Times(b, size)
    decreases b
  {
    if a < b {
      TimesGrows(a, b - 1, size);
    }
  }

  lemma {:induction false} TimesAdds(a: nat, b: nat, size: nat)
    ensures T.Times(a + b, size) == T.Times(a, size) + T.Times(b, size)
  {
    if b > 0 {
      TimesAdds(a, b - 1, size);
    }
  }

  lemma {:induction false} TimesCommutes(a: nat, b: nat)
    ensures T.Times(a, b) == T.Times(b, a)
  {
    T.TimesIsProduct(a, b);
    T.TimesIsProduct(b, a);
    L.MulSign(a, b);
  }

  lemma {:induction false} ThinningArithmetic(n: nat, max: nat, step: nat, k: nat)
    requires max > 0 && n > max && n <= T.Times(step, max) < n + max && n <= T.Times(k, step) < n + step
    ensures k <= max && 2 * k > max
  {
    TimesCommutes(step, max);
    TimesAdds(max, 1, step);
    TimesAdds(k, k, step);
    if k > max {
      TimesGrows(max + 1, k, step);
    }
    if 2 * k <= max {
      TimesGrows(k + k, max, step);
    }
  }

  method SelectValidSamples(samples: seq<C.Sample>, max: nat) returns (down: seq<C.Sample>)
    requires max > 0
    ensures down == SelectedSamples(samples, max)
  {
    hide Strided, Ceil;
    var valid := [];
    for i := 0 to |samples|
      invariant valid == ValidHits(samples[..i])
    {
      assert samples[..i + 1][..i] == samples[..i];
      if samples[i].valid && samples[i].hit { valid := valid + [samples[i]]; }
    }
    assert samples[..|samples|] == samples;
    if |valid| <= max { return valid; }
    down := Thin(valid, max);
  }

  method Thin<T>(valid: seq<T>, max: nat) returns (down: seq<T>)
    requires max > 0 && |valid| > max
    ensures down == Strided(valid, 0, Stride(|valid|, max))
  {
    var step := Stride(|valid|, max);
    down := [];
    var i := 0;
    StrideBounds(|valid|, max);
    StridedSize(valid, 0, step);
    ThinningArithmetic(|valid|, max, step, |Strided(valid, 0, step)|);
    while i < |valid| && |down| < max
      invariant down + Strided(valid, i, step) == Strided(valid, 0, step)
      decreases |valid| - i
    {
      down := down + [valid[i]];
      i := i + step;
    }
  }

  // ----- best and second -----

  /** Element b has the highest score, and is the first that has it. */
  ghost predicate IsBest(curve: seq<Candidate>, b: nat) {
    && b < |curve| && (forall j :: 0 <= j < |curve| ==> curve[j].score <= curve[b].score)
    && forall j :: 0 <= j < b ==> curve[j].score < curve[b].score
  }

  predicate Far(a: Candidate, b: Candidate) { Abs(a.yaw - b.yaw) > TINY }

  /** The selection considers element s for second: it comes before the best or lies far from it. */
  predicate Eligible(curve: seq<Candidate>, b: nat, s: nat)
    requires b < |curve| && s < |curve|
  {
    s != b && (s < b || Far(curve[s], curve[b]))
  }

  /** Element s is the first eligible one with its score. */
  ghost predicate IsFirstEligible(curve: seq<Candidate>, b: nat, s: nat)
    requires b < |curve| && s < |curve|
  {
    Eligible(curve, b, s) && forall j: nat :: j < s && Eligible(curve, b, j) ==> curve[j].score < curve[s].score
  }

  /** second is the best of the eligible elements, and the first such; if there is none it is b itself. */
  ghost predicate IsSecond(curve: seq<Candidate>, b: nat, second: Candidate)
    requires b < |curve|
  {
    && second.score <= curve[b].score
    && (forall j: nat :: j < |curve| && Eligible(curve, b, j) ==> curve[j].score <= second.score)
    && ((exists s: nat :: s < |curve| && IsFirstEligible(curve, b, s) && second == curve[s])
        || (second == curve[b] && forall j: nat :: j < |curve| ==> !Eligible(curve, b, j)))
  }

  /** Positions of best and second; -1 while there is none. */
  datatype Pick = Pick(best: int, second: int)

  function PickOf(curve: seq<Candidate>, n: nat): (p: Pick)
    requires n <= |curve|
    ensures -1 <= p.best < n && -1 <= p.second < n && (p.best < 0 <==> n == 0) && (p.second >= 0 ==> p.second != p.best)
  {
    if n == 0 then Pick(-1, -1) else NextPick(curve, PickOf(curve, n - 1), n - 1)
  }

  /** The pick once element i has been looked at. */
  function NextPick(curve: seq<Candidate>, p: Pick, i: nat): Pick
    requires i < |curve| && -1 <= p.best < i && -1 <= p.second < i
  {
    var c := curve[i];
    if p.best < 0 || c.score > curve[p.best].score then Pick(i, p.best)
    else if Far(c, curve[p.best]) && (p.second < 0 || c.score > curve[p.second].score) then Pick(p.best, i)
    else p
  }

  function BestOf(curve: seq<Candidate>): Candidate
    requires curve != []
  {
    curve[PickOf(curve, |curve|).best]
  }

  function SecondOf(curve: seq<Candidate>): Candidate
    requires curve != []
  {
    var p := PickOf(curve, |curve|);
    if p.second < 0 then curve[p.best] else curve[p.second]
  }

  method SelectBestAndSecond(curve: seq<Candidate>) returns (best: Candidate, second: Candidate)
    requires curve != []
    ensures best == BestOf(curve) && second == SecondOf(curve)
  {
    best := curve[0];
    second := curve[0];
    var haveBest, haveSecond := false, false;
    for i := 0 to |curve|
      invariant var p := PickOf(curve, i);
                && haveBest == (p.best >= 0) && (haveBest ==> best == curve[p.best])
                && haveSecond == (p.second >= 0) && (haveSecond ==> second == curve[p.second])
    {
      var c := curve[i];
      if !haveBest || c.score > best.score {
        if haveBest {
          second, haveSecond := best, true;
        }
        best, haveBest := c, true;
      } else if Abs(c.yaw - best.yaw) > TINY && (!haveSecond || c.score > second.score) {
        second, haveSecond := c, true;
      }
    }
    if !haveSecond { second := best; }
  }

  /** What is known of the pick after n elements. */
  ghost predicate PickedSoFar(curve: seq<Candidate>, n: nat, p: Pick)
    requires 0 < n <= |curve| && 0 <= p.best < n && -1 <= p.second < n
  {
    && (forall j: nat :: j < n ==> curve[j].score <= curve[p.best].score)
    && (forall j: nat :: j < p.best ==> curve[j].score < curve[p.best].score)
    && (p.second >= 0 ==> IsFirstEligible(curve, p.best, p.second))
    && (forall j: nat :: j < n && Eligible(curve, p.best, j) ==>
          p.second >= 0 && curve[j].score <= curve[p.second].score)
  }

  lemma {:induction false} PickSoFar(curve: seq<Candidate>, n: nat)
    requires 0 < n <= |curve|
    ensures PickedSoFar(curve, n, PickOf(curve, n))
  {
    hide PickedSoFar, NextPick;
    if n > 1 {
      PickSoFar(curve, n - 1);
      PickedNext(curve, n, PickOf(curve, n - 1));
    } else {
      assert PickOf(curve, 1) == NextPick(curve, PickOf(curve, 0), 0);
      FirstPick(curve);
    }
  }

  lemma {:induction false} FirstPick(curve: seq<Candidate>)
    requires curve != []
    ensures PickedSoFar(curve, 1, NextPick(curve, Pick(-1, -1), 0))
  {
    hide Far;
  }

  lemma {:induction false} PickedNext(curve: seq<Candidate>, n: nat, p: Pick)
    requires 1 < n <= |curve| && 0 <= p.best < n - 1 && -1 <= p.second < n - 1 && PickedSoFar(curve, n - 1, p)
    ensures PickedSoFar(curve, n, NextPick(curve, p, n - 1))
  {
    hide Far;
  }

  /** The selection finds the first best element and the best of the elements eligible for second. */
  lemma {:induction false} PickMeans(curve: seq<Candidate>)
    requires curve != []
    ensures exists b: nat :: && b < |curve| && IsBest(curve, b) && BestOf(curve) == curve[b]
                             && IsSecond(curve, b, SecondOf(curve))
  {
    var p := PickOf(curve, |curve|);
    PickSoFar(curve, |curve|);
    hide PickOf, Eligible;
    assert IsBest(curve, p.best) && IsSecond(curve, p.best, SecondOf(curve));
  }

  /** Element s scores at least as much as every element other than b. */
  ghost predicate Leads(curve: seq<Candidate>, b: nat, s: nat) {
    s < |curve| && s != b && forall j: nat :: j < |curve| && j != b ==> curve[j].score <= curve[s].score
  }

  /** The element picked as second is a true runner-up exactly when some true runner-up comes before the
      best or lies more than TINY away from it. */
  lemma {:induction false} SecondIsRunnerUpIff(curve: seq<Candidate>, b: nat)
    requires IsBest(curve, b)
    ensures var p := PickOf(curve, |curve|);
            p.best == b && ((p.second >= 0 && Leads(curve, b, p.second)) <==>
                            exists s: nat :: s < |curve| && Eligible(curve, b, s) && Leads(curve, b, s))
  {
    var p := PickOf(curve, |curve|);
    PickSoFar(curve, |curve|);
    hide PickOf, Eligible;
    BestIsUnique(curve, p.best, b);
  }

  lemma {:induction false} BestIsUnique(curve: seq<Candidate>, a: nat, b: nat)
    requires IsBest(curve, a) && IsBest(curve, b)
    ensures a == b
  {
    assert curve[a].score == curve[b].score;
  }

  /** When all yaws are more than TINY apart, the second is the true runner-up. */
  lemma {:induction false} SecondIsRunnerUp(curve: seq<Candidate>, b: nat)
    requires IsBest(curve, b) && |curve| >= 2
    requires forall i, j :: 0 <= i < |curve| && 0 <= j < |curve| && i != j ==> Far(curve[i], curve[j])
    ensures exists s: nat :: Leads(curve, b, s) && SecondOf(curve) == curve[s]
  {
    var p := PickOf(curve, |curve|);
    PickSoFar(curve, |curve|);
    BestIsUnique(curve, p.best, b);
    assert Eligible(curve, b, if b == 0 then 1 else 0);
    assert forall j: nat :: j < |curve| && j != b ==> Eligible(curve, b, j);
    assert Leads(curve, b, p.second);
  }

  // ----- peaks -----

  predicate IsPeak(curve: seq<Candidate>, i: int)
    requires 0 <= i < |curve|
  {
    && (i == 0 || curve[i].score >= curve[i - 1].score)
    && (i + 1 == |curve| || curve[i].score >= curve[i + 1].score)
  }

  /** Peaks among the first n elements. */
  function PeaksUpTo(curve: seq<Candidate>, n: nat): nat
    requires n <= |curve|
  {
    if n == 0 then 0 else PeaksUpTo(curve, n - 1) + (if IsPeak(curve, n - 1) then 1 else 0)
  }

  method CountPeaks(sorted: seq<Candidate>) returns (peaks: nat)
    ensures peaks == PeaksUpTo(sorted, |sorted|)
  {
    peaks := 0;
    for i := 0 to |sorted|
      invariant peaks == PeaksUpTo(sorted, i)
    {
      var gePrev := i == 0 || sorted[i].score >= sorted[i - 1].score;
      var geNext := i + 1 == |sorted| || sorted[i].score >= sorted[i + 1].score;
      if gePrev && geNext { peaks := peaks + 1; }
    }
  }

  lemma {:induction false} PeaksCounted(curve: seq<Candidate>, n: nat, i: nat, j: nat)
    requires i <= j < n <= |curve| && IsPeak(curve, i) && IsPeak(curve, j)
    ensures PeaksUpTo(curve, n) >= if i == j then 1 else 2
  {
    if j == n - 1 {
      if i < j { PeaksCounted(curve, n - 1, i, i); }
    } else {
      PeaksCounted(curve, n - 1, i, j);
    }
  }

  /** A peak at least sep away from the best one that reaches the given part of its score. */
  ghost predicate Rivals(curve: seq<Candidate>, best: Candidate, sep: real, ratio: real, i: nat) {
    i < |curve| && IsPeak(curve, i) && best.score != 0.0
    && Abs(curve[i].yaw - best.yaw) >= sep && curve[i].score / best.score >= ratio
  }

  ghost predicate HasRival(curve: seq<Candidate>, best: Candidate, sep: real, ratio: real) {
    best.score > 0.0 && exists i: nat :: Rivals(curve, best, sep, ratio, i)
  }

  method IsMultimodal(sorted: seq<Candidate>, best: Candidate, enabled: bool, sep: real, ratio: real) returns (m: bool)
    ensures m <==> enabled && HasRival(sorted, best, sep, ratio)
  {
    if !enabled || best.score <= 0.0 { return false; }
    for i := 0 to |sorted|
      invariant forall j :: 0 <= j < i ==> !Rivals(sorted, best, sep, ratio, j)
    {
      var gePrev := i == 0 || sorted[i].score >= sorted[i - 1].score;
      var geNext := i + 1 == |sorted| || sorted[i].score >= sorted[i + 1].score;
      if !gePrev || !geNext { continue; }
      if Abs(sorted[i].yaw - best.yaw) < sep { continue; }
      if sorted[i].score / best.score >= ratio {
        assert Rivals(sorted, best, sep, ratio, i);
        return true;
      }
    }
    m := false;
  }

  /** The best element is a peak, so a curve always has one; with a positive separation, multimodal
      means at least two; with none, the best peak is its own rival and every positive curve counts
      as multimodal. */
  lemma {:induction false} PeaksOfACurve(curve: seq<Candidate>, b: nat, sep: real, ratio: real)
    requires IsBest(curve, b) && 0.0 <= sep && ratio <= 1.0
    ensures PeaksUpTo(curve, |curve|) >= 1
    ensures sep > 0.0 && HasRival(curve, curve[b], sep, ratio) ==> PeaksUpTo(curve, |curve|) >= 2
    ensures sep == 0.0 ==> (HasRival(curve, curve[b], sep, ratio) <==> curve[b].score > 0.0)
  {
    PeaksCounted(curve, |curve|, b, b);
    if sep > 0.0 && HasRival(curve, curve[b], sep, ratio) {
      var i: nat :| Rivals(curve, curve[b], sep, ratio, i);
      PeaksCounted(curve, |curve|, if i < b then i else b, if i < b then b else i);
    }
    if sep == 0.0 && curve[b].score > 0.0 {
      assert Rivals(curve, curve[b], sep, ratio, b);
    }
  }

  // ----- sorting -----

  function ByYaw(c: Candidate): real { c.yaw }

  function ByScore(c: Candidate): real { c.score }

  function Median(curve: seq<Candidate>): real {
    var s, n := SortedBy(curve, ByScore), |curve|;
    if n == 0 then 0.0 else if n % 2 == 1 then s[n / 2].score else 0.5 * (s[n / 2 - 1].score + s[n / 2].score)
  }

  /** The median is not above the best score, so sharpness is never negative. */
  lemma {:induction false} MedianBelowBest(curve: seq<Candidate>, top: real)
    requires curve != [] && Tops(curve, top)
    ensures Median(curve) <= top
  {
    hide SortedBy;
    SameElements(SortedBy(curve, ByScore), curve);
  }
}
