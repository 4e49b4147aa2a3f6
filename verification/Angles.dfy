/** Angles in radians and the wrap into [-pi, pi] that every yaw in the program goes through
    (include/robot_slamd/core/common.hpp). Doubles are modelled as reals. */
module Angles {

  const PI: real := 3.14159265358979323846

  function Abs(x: real): (r: real)
    ensures r >= 0.0
  {
    if x < 0.0 then -x else x
  }

  function Ceil(x: real): int { -((-x).Floor) }

  function Max(a: real, b: real): real { if a < b then b else a }

  function Min(a: real, b: real): real { if b < a then b else a }

  function Clamp(v: real, lo: real, hi: real): real { Max(lo, Min(hi, v)) }

  function Deg2Rad(d: real): real { d * PI / 180.0 }

  function Rad2Deg(r: real): real { r * 180.0 / PI }

  /** The angle covered by k whole turns. */
  function Turns(k: int): real { 2.0 * PI * (k as real) }

  /** a and b are the same heading. */
  ghost predicate Congruent(a: real, b: real) {
    exists k: int :: a - b == Turns(k)
  }

  function CeilTurns(a: real): (k: int)
    ensures a <= Turns(k) < a + Turns(1)
  {
    var q := -a / (2.0 * PI);
    -(q.Floor)
  }

  /** The representative of a that the two loops of wrap_pi stop at: subtract turns only while above
      pi, add turns only while below -pi. */
  function WrapPi(a: real): (r: real)
    ensures -PI <= r <= PI
    ensures Congruent(a, r)
    ensures -PI <= a <= PI ==> r == a
  {
    if a > PI then
      var k := CeilTurns(a - PI);
      assert a - (a - Turns(k)) == Turns(k);
      a - Turns(k)
    else if a < -PI then
      var k := CeilTurns(-PI - a);
      assert a - (a + Turns(k)) == Turns(-k);
      a + Turns(k)
    else
      assert a - a == Turns(0);
      a
  }

  method WrapPiLoop(angle: real) returns (a: real)
    ensures a == WrapPi(angle)
  {
    a := angle;
    ghost var down := if angle > PI then CeilTurns(angle - PI) else 0;
    ghost var k := 0;
    while a > PI
      invariant 0 <= k <= down && a == angle - Turns(k)
      decreases down - k
    {
      a, k := a - 2.0 * PI, k + 1;
    }
    assert angle > PI ==> k == down && a == WrapPi(angle) && a > -PI by {
      if angle > PI {
        assert angle - PI <= Turns(k);
        assert Turns(down) < Turns(k + 1);
      }
    }
    ghost var up := if angle < -PI then CeilTurns(-PI - angle) else 0;
    ghost var j := 0;
    while a < -PI
      invariant 0 <= j <= up
      invariant if angle < -PI then a == angle + Turns(j) else a == WrapPi(angle)
      decreases up - j
    {
      a, j := a + 2.0 * PI, j + 1;
    }
    assert angle < -PI ==> j == up by {
      if angle < -PI {
        assert -PI - angle <= Turns(j);
        assert Turns(up) < Turns(j + 1);
      }
    }
  }

  lemma CongruentSym(a: real, b: real)
    requires Congruent(a, b)
    ensures Congruent(b, a)
  {
    var k :| a - b == Turns(k);
    assert b - a == Turns(-k);
  }

  /** Headings add: congruent summands give congruent sums. */
  lemma CongruentAdd(a: real, b: real, c: real, d: real)
    requires Congruent(a, b) && Congruent(c, d)
    ensures Congruent(a + c, b + d)
  {
    var k :| a - b == Turns(k);
    var j :| c - d == Turns(j);
    assert (a + c) - (b + d) == Turns(k + j);
  }

  lemma CongruentTrans(a: real, b: real, c: real)
    requires Congruent(a, b) && Congruent(b, c)
    ensures Congruent(a, c)
  {
    var k :| a - b == Turns(k);
    var j :| b - c == Turns(j);
    assert a - c == Turns(k + j);
  }

  lemma CongruentRefl(a: real)
    ensures Congruent(a, a)
  {
    assert a - a == Turns(0);
  }

  /** Wrapping gives the shortest rotation: nothing congruent to a is closer to zero. */
  lemma WrapIsShortest(a: real, b: real)
    requires Congruent(a, b)
    ensures Abs(WrapPi(a)) <= Abs(b)
  {
    var r := WrapPi(a);
    CongruentSym(a, r);
    CongruentTrans(r, a, b);
    var k :| r - b == Turns(k);
    if k >= 1 {
      assert Turns(k) >= Turns(1);
    } else if k <= -1 {
      assert Turns(k) <= Turns(-1);
    } else {
      assert Turns(k) == 0.0;
    }
  }

  /** The triangle inequality on the circle. */
  lemma WrapTriangle(a: real, b: real)
    ensures Abs(WrapPi(a + b)) <= Abs(WrapPi(a)) + Abs(WrapPi(b))
  {
    CongruentAdd(a, WrapPi(a), b, WrapPi(b));
    WrapIsShortest(a + b, WrapPi(a) + WrapPi(b));
  }

  /** Two wrapped forms of one heading agree, up to the choice between pi and -pi. */
  lemma WrapUnique(a: real, r: real)
    requires Congruent(a, r) && -PI <= r <= PI
    ensures r == WrapPi(a) || (Abs(r) == PI && Abs(WrapPi(a)) == PI)
  {
    CongruentSym(a, r);
    CongruentTrans(r, a, WrapPi(a));
    var k :| r - WrapPi(a) == Turns(k);
    if k >= 1 {
      assert Turns(k) >= Turns(1);
    } else if k <= -1 {
      assert Turns(k) <= Turns(-1);
    }
  }

  // ----- the plain functions -----

  lemma {:induction false} MaxMinMeans(a: real, b: real)
    ensures Max(a, b) >= a && Max(a, b) >= b && (Max(a, b) == a || Max(a, b) == b)
    ensures Min(a, b) <= a && Min(a, b) <= b && (Min(a, b) == a || Min(a, b) == b)
  {}

  /** Clamping gives the point of the interval that is nearest. */
  lemma {:induction false} ClampIsNearest(v: real, lo: real, hi: real, x: real)
    requires lo <= x <= hi
    ensures lo <= Clamp(v, lo, hi) <= hi && Abs(v - Clamp(v, lo, hi)) <= Abs(v - x)
  {}

  /** A straight angle has 180 degrees; degrees and radians add and convert back. */
  lemma {:induction false} DegreesMean(a: real, b: real)
    ensures Deg2Rad(180.0) == PI && Deg2Rad(a + b) == Deg2Rad(a) + Deg2Rad(b)
    ensures Rad2Deg(Deg2Rad(a)) == a && Deg2Rad(Rad2Deg(a)) == a
  {}

  lemma {:induction false} CeilMeans(x: real)
    ensures (Ceil(x) - 1) as real < x <= Ceil(x) as real
  {}
}
