/** The score curve of the sparse-scan yaw matcher (include/robot_slamd/active_scan/sparse_scan_yaw_matcher.hpp):
    how candidates enter it, and what a sweep over yaws leaves in it. How well a yaw fits the map is
    the parameter f. */
module YawCurve {
  import opened Angles

  const TINY: real := 0.000000001

  datatype Candidate = Candidate(yaw: real, score: real, inlierRatio: real)

  datatype Fit = Fit(score: real, inlierRatio: real)

  function CandidateAt(f: real -> Fit, yaw: real): Candidate { Candidate(yaw, f(yaw).score, f(yaw).inlierRatio) }

  predicate Near(a: Candidate, b: Candidate) { Abs(a.yaw - b.yaw) < TINY }

  /** Position of the first element near c, or the length of the curve. */
  function FirstNear(curve: seq<Candidate>, c: Candidate): (i: nat)
    ensures i <= |curve| && (forall j :: 0 <= j < i ==> !Near(curve[j], c)) && (i < |curve| ==> Near(curve[i], c))
  {
    if curve == [] || Near(curve[0], c) then 0 else FirstNear(curve[1..], c) + 1
  }

  function Added(curve: seq<Candidate>, c: Candidate): (r: seq<Candidate>)
    ensures |curve| <= |r| && r != []
  {
    var i := FirstNear(curve, c);
    if i == |curve| then curve + [c] else if c.score > curve[i].score then curve[i := c] else curve
  }

  method AddCandidate(curve: seq<Candidate>, c: Candidate) returns (r: seq<Candidate>)
    ensures r == Added(curve, c)
  {
    for i := 0 to |curve|
      invariant forall j :: 0 <= j < i ==> !Near(curve[j], c)
    {
      if Abs(curve[i].yaw - c.yaw) < TINY {
        return if c.score > curve[i].score then curve[i := c] else curve;
      }
    }
    r := curve + [c];
  }

  // ----- the best score -----

  /** m is the highest score on the curve. */
  ghost predicate Tops(curve: seq<Candidate>, m: real) {
    (exists i :: 0 <= i < |curve| && curve[i].score == m) && (forall i :: 0 <= i < |curve| ==> curve[i].score <= m)
  }

  function TopScore(curve: seq<Candidate>): (m: real)
    requires curve != []
    ensures Tops(curve, m)
  {
    var last := |curve| - 1;
    if last == 0 then curve[0].score
    else
      var m := TopScore(curve[..last]);
      assert forall i :: 0 <= i < last ==> curve[..last][i] == curve[i];
      if curve[last].score > m then curve[last].score else m
  }

  /** Adding a candidate never lowers the best score, and raises it exactly to a better candidate's. */
  lemma {:induction false} AddedTops(curve: seq<Candidate>, c: Candidate)
    ensures TopScore(Added(curve, c)) == if curve == [] then c.score else Max(TopScore(curve), c.score)
  {
    hide Near, TopScore;
    var r, i := Added(curve, c), FirstNear(curve, c);
    var m, m' := if curve == [] then c.score else Max(TopScore(curve), c.score), TopScore(r);
    assert r[i] == c || (i < |curve| && r[i] == curve[i] && c.score <= curve[i].score);
    if curve != [] {
      var k :| 0 <= k < |curve| && curve[k].score == TopScore(curve);
      assert r[k] == curve[k] || r[k] == c;
    }
    var k' :| 0 <= k' < |r| && r[k'].score == m';
    assert r[k'] == c || (k' < |curve| && r[k'] == curve[k']);
  }

  // ----- separation -----

  /** No two yaws closer than TINY. */
  ghost predicate Separated(curve: seq<Candidate>) {
    forall i, j :: 0 <= i < j < |curve| ==> !Near(curve[i], curve[j])
  }

  /** c takes the place of the first near element although another one is near as well. */
  ghost predicate Crowds(curve: seq<Candidate>, c: Candidate) {
    var i := FirstNear(curve, c);
    i < |curve| && c.score > curve[i].score && exists j :: i < j < |curve| && Near(curve[j], c)
  }

  /** The curve stays separated exactly when the new candidate does not crowd it. */
  lemma {:induction false} SeparatedIff(curve: seq<Candidate>, c: Candidate)
    requires Separated(curve)
    ensures Separated(Added(curve, c)) <==> !Crowds(curve, c)
  {
    var r, i := Added(curve, c), FirstNear(curve, c);
    if Crowds(curve, c) {
      var j :| i < j < |curve| && Near(curve[j], c);
      assert r[i] == c && r[j] == curve[j];
    }
    assert forall a: Candidate, b: Candidate :: Near(a, b) <==> Near(b, a);
    hide Near;
  }

  // ----- a sweep over yaws -----

  /** lo + i * step. */
  function YawAt(lo: real, step: real, i: int): real { lo + (i as real) * step }

  lemma {:induction false} YawsAscend(lo: real, step: real, i: int, j: int)
    requires step > 0.0 && i < j
    ensures YawAt(lo, step, j) - YawAt(lo, step, i) >= step
  {
    var d := (j - i) as real;
    assert (d - 1.0) * step >= 0.0;
    assert YawAt(lo, step, j) - YawAt(lo, step, i) == d * step;
  }

  predicate InRange(yaw: real, max: real) { -max - TINY <= yaw <= max + TINY }

  /** The curve after the first n yaws of a sweep. */
  function Swept(curve: seq<Candidate>, f: real -> Fit, lo: real, step: real, max: real, n: nat): seq<Candidate> {
    if n == 0 then curve
    else
      var before, yaw := Swept(curve, f, lo, step, max, n - 1), YawAt(lo, step, n - 1);
      if InRange(yaw, max) then Added(before, CandidateAt(f, yaw)) else before
  }

  function SweepSize(lo: real, hi: real, step: real): nat
    requires step > 0.0
  {
    var steps := ((hi - lo) / step + 0.5).Floor;
    if steps < 0 then 0 else steps + 1
  }

  function RangeSwept(curve: seq<Candidate>, f: real -> Fit, lo: real, hi: real, step: real,
                      max: real): seq<Candidate> {
    if step <= 0.0 then curve else Swept(curve, f, lo, step, max, SweepSize(lo, hi, step))
  }

  lemma {:induction false} SweptStarts(curve: seq<Candidate>, f: real -> Fit, lo: real, step: real, max: real)
    ensures Swept(curve, f, lo, step, max, 0) == curve
  {}

  lemma {:induction false} SweptNext(curve: seq<Candidate>, f: real -> Fit, lo: real, step: real, max: real, i: nat)
    ensures var before, yaw := Swept(curve, f, lo, step, max, i), YawAt(lo, step, i);
            Swept(curve, f, lo, step, max, i + 1)
            == if InRange(yaw, max) then Added(before, CandidateAt(f, yaw)) else before
  {}

  method EvaluateRange(curve: seq<Candidate>, f: real -> Fit, lo: real, hi: real, step: real, max: real)
    returns (r: seq<Candidate>)
    ensures r == RangeSwept(curve, f, lo, hi, step, max)
  {
    hide Added, CandidateAt, Swept, YawAt;
    r := curve;
    if step <= 0.0 { return; }
    var steps := ((hi - lo) / step + 0.5).Floor;
    var i := 0;
    SweptStarts(curve, f, lo, step, max);
    while i <= steps
      invariant 0 <= i && (if steps < 0 then i == 0 else i <= steps + 1)
      invariant r == Swept(curve, f, lo, step, max, i)
      decreases steps - i
    {
      var yaw := YawAt(lo, step, i);
      SweptNext(curve, f, lo, step, max, i);
      if !(yaw < -max - TINY || yaw > max + TINY) {
        r := AddCandidate(r, CandidateAt(f, yaw));
      }
      i := i + 1;
    }
  }

  /** Every element is a yaw inside the search range with its own fit. */
  ghost predicate Genuine(curve: seq<Candidate>, f: real -> Fit, max: real) {
    forall i :: 0 <= i < |curve| ==> InRange(curve[i].yaw, max) && curve[i] == CandidateAt(f, curve[i].yaw)
  }

  /** No yaw in range among the first n of the sweep fits better than the best of the curve. */
  ghost predicate BeatsSweep(r: seq<Candidate>, f: real -> Fit, lo: real, step: real, max: real, n: nat) {
    forall i: nat :: i < n && InRange(YawAt(lo, step, i), max) ==> r != [] && f(YawAt(lo, step, i)).score <= TopScore(r)
  }

  /** What sweeping does to the best score: it never falls, and becomes at least the fit of every yaw
      that was tried. With Genuine it is the fit of a yaw on the curve. */
  lemma {:induction false} SweepTops(curve: seq<Candidate>, f: real -> Fit, lo: real, step: real, max: real, n: nat)
    ensures var r := Swept(curve, f, lo, step, max, n);
            && (curve != [] ==> r != [] && TopScore(r) >= TopScore(curve))
            && BeatsSweep(r, f, lo, step, max, n)
  {
    if n > 0 {
      var before, yaw := Swept(curve, f, lo, step, max, n - 1), YawAt(lo, step, n - 1);
      SweepTops(curve, f, lo, step, max, n - 1);
      AddedTops(before, CandidateAt(f, yaw));
      hide TopScore, YawAt, InRange, Added;
    }
  }

  lemma {:induction false} SweepIsGenuine(curve: seq<Candidate>, f: real -> Fit, lo: real, step: real, max: real,
                                          n: nat)
    requires Genuine(curve, f, max)
    ensures Genuine(Swept(curve, f, lo, step, max, n), f, max)
  {
    hide YawAt, InRange, Near;
    if n > 0 {
      SweepIsGenuine(curve, f, lo, step, max, n - 1);
    }
  }

  /** The yaw is in range and one of the first n of the sweep. */
  ghost predicate IsTried(yaw: real, lo: real, step: real, max: real, n: nat) {
    InRange(yaw, max) && exists k: nat :: k < n && yaw == YawAt(lo, step, k)
  }

  ghost predicate IsOn(yaw: real, curve: seq<Candidate>) { exists k: nat :: k < |curve| && yaw == curve[k].yaw }

  /** A sweep leaves nothing on the curve but what was there and what it tried. */
  lemma {:induction false} SweepAddsTried(curve: seq<Candidate>, f: real -> Fit, lo: real, step: real, max: real,
                                          n: nat)
    ensures forall x :: x in Swept(curve, f, lo, step, max, n) ==>
              IsOn(x.yaw, curve) || IsTried(x.yaw, lo, step, max, n)
  {
    if n == 0 {
      assert forall i: nat :: i < |curve| ==> IsOn(curve[i].yaw, curve);
    } else {
      SweepAddsTried(curve, f, lo, step, max, n - 1);
      var before, yaw := Swept(curve, f, lo, step, max, n - 1), YawAt(lo, step, n - 1);
      AddedElements(before, CandidateAt(f, yaw));
      hide InRange, YawAt, IsOn, Added;
    }
  }

  lemma {:induction false} AddedElements(curve: seq<Candidate>, c: Candidate)
    ensures forall x :: x in Added(curve, c) ==> x in curve || x == c
  {
    hide Near;
  }

  /** A first sweep keeps the curve separated whatever the step and the fits: yaws ascend, so a new
      one can be near the last element only. */
  lemma {:induction false} FirstSweepSeparated(f: real -> Fit, lo: real, step: real, max: real, n: nat)
    requires step > 0.0
    ensures var r := Swept([], f, lo, step, max, n);
            Separated(r) && forall i :: 0 <= i < |r| ==> exists k :: 0 <= k < n && r[i].yaw == YawAt(lo, step, k)
  {
    if n > 0 {
      var before, yaw := Swept([], f, lo, step, max, n - 1), YawAt(lo, step, n - 1);
      FirstSweepSeparated(f, lo, step, max, n - 1);
      forall i | 0 <= i < |before| ensures before[i].yaw < yaw {
        var k :| 0 <= k < n - 1 && before[i].yaw == YawAt(lo, step, k);
        YawsAscend(lo, step, k, n - 1);
      }
      var c := CandidateAt(f, yaw);
      assert !Crowds(before, c);
      SeparatedIff(before, c);
      hide YawAt, Near, Crowds, InRange, Separated;
    }
  }

  // ----- the refining sweep -----

  /** Yaws of the curve are at least 2 * TINY apart or equal. */
  ghost predicate Wide(curve: seq<Candidate>) {
    forall i, j :: 0 <= i < |curve| && 0 <= j < |curve| && i != j ==> Abs(curve[i].yaw - curve[j].yaw) >= 2.0 * TINY
  }

  lemma {:induction false} FirstSweepWide(f: real -> Fit, lo: real, step: real, max: real, n: nat)
    requires step >= 2.0 * TINY
    ensures Wide(Swept([], f, lo, step, max, n))
  {
    if n > 0 {
      var before, yaw := Swept([], f, lo, step, max, n - 1), YawAt(lo, step, n - 1);
      FirstSweepWide(f, lo, step, max, n - 1);
      FirstSweepSeparated(f, lo, step, max, n - 1);
      forall i | 0 <= i < |before| ensures before[i].yaw <= yaw - step {
        var k :| 0 <= k < n - 1 && before[i].yaw == YawAt(lo, step, k);
        YawsAscend(lo, step, k, n - 1);
      }
      hide YawAt, InRange, Separated;
    }
  }

  /** Yaw m of a sweep over the curve is near element b and near x, another element's yaw or one tried before,
      and those two are not near each other. */
  ghost predicate Collides(curve: seq<Candidate>, lo: real, step: real, max: real, m: nat, b: nat, x: real) {
    var y := YawAt(lo, step, m);
    && InRange(y, max) && b < |curve| && (IsOn(x, curve) || IsTried(x, lo, step, max, m))
    && Abs(curve[b].yaw - x) >= TINY && Abs(curve[b].yaw - y) < TINY && Abs(x - y) < TINY
  }

  ghost predicate HasCollision(curve: seq<Candidate>, lo: real, step: real, max: real, n: nat) {
    exists m: nat, b: nat, x: real :: m < n && Collides(curve, lo, step, max, m, b, x)
  }

  /** A sweep over a separated curve leaves it separated unless two yaws collide. */
  lemma {:induction false} SeparatedOrCollision(curve: seq<Candidate>, f: real -> Fit, lo: real, step: real,
                                                max: real, n: nat)
    requires Separated(curve) && step > 0.0
    ensures Separated(Swept(curve, f, lo, step, max, n)) || HasCollision(curve, lo, step, max, n)
  {
    if n > 0 {
      SeparatedOrCollision(curve, f, lo, step, max, n - 1);
      var before, c := Swept(curve, f, lo, step, max, n - 1), CandidateAt(f, YawAt(lo, step, n - 1));
      SweepAddsTried(curve, f, lo, step, max, n - 1);
      hide YawAt, IsOn, IsTried, Near, Added;
      if Separated(before) && InRange(YawAt(lo, step, n - 1), max) {
        SeparatedIff(before, c);
        if Crowds(before, c) {
          CrowdCollides(curve, before, c, lo, step, max, n - 1);
        }
      }
    }
  }

  lemma {:induction false} CrowdCollides(curve: seq<Candidate>, before: seq<Candidate>, c: Candidate, lo: real,
                                         step: real, max: real, m: nat)
    requires Separated(before) && Crowds(before, c) && step > 0.0
    requires c.yaw == YawAt(lo, step, m) && InRange(c.yaw, max)
    requires forall x :: x in before ==> IsOn(x.yaw, curve) || IsTried(x.yaw, lo, step, max, m)
    ensures HasCollision(curve, lo, step, max, m + 1)
  {
    var i := FirstNear(before, c);
    var j :| i < j < |before| && Near(before[j], c);
    var x, y := before[i], before[j];
    assert !Near(x, y);
    hide IsOn, IsTried, Separated, Crowds;
    if !IsOn(x.yaw, curve) && !IsOn(y.yaw, curve) {
      TriedIsBelow(x.yaw, lo, step, max, m);
      TriedIsBelow(y.yaw, lo, step, max, m);
      assert false;
    } else {
      var (on, other) := if IsOn(x.yaw, curve) then (x.yaw, y.yaw) else (y.yaw, x.yaw);
      var b := OnIndex(on, curve);
      assert Collides(curve, lo, step, max, m, b, other);
    }
  }

  lemma {:induction false} OnIndex(yaw: real, curve: seq<Candidate>) returns (b: nat)
    requires IsOn(yaw, curve)
    ensures b < |curve| && curve[b].yaw == yaw
  {
    b :| b < |curve| && yaw == curve[b].yaw;
  }

  lemma {:induction false} TriedIsBelow(yaw: real, lo: real, step: real, max: real, m: nat)
    requires IsTried(yaw, lo, step, max, m) && step > 0.0
    ensures yaw <= YawAt(lo, step, m) - step
  {
    var k: nat :| k < m && yaw == YawAt(lo, step, k);
    YawsAscend(lo, step, k, m);
  }

  /** A refining sweep in steps of at least TINY over a wide curve leaves the curve separated. */
  lemma {:induction false} RefiningSweepSeparated(curve: seq<Candidate>, f: real -> Fit, lo: real, step: real,
                                                  max: real, n: nat)
    requires Wide(curve) && step >= TINY
    ensures Separated(Swept(curve, f, lo, step, max, n))
  {
    SeparatedOrCollision(curve, f, lo, step, max, n);
    hide YawAt, InRange, IsTried;
    if m: nat, b: nat, x: real :| m < n && Collides(curve, lo, step, max, m, b, x) {
      if IsTried(x, lo, step, max, m) {
        TriedIsBelow(x, lo, step, max, m);
      }
      assert false;
    }
  }
}
