/** What the spin-scan matcher reads off its residual curve: the three smallest residuals and the
    separated local minima (include/robot_slamd/mapping/spin_scan_localization.hpp). The residual of
    an offset is the parameter f. */
module SpinMatcher {
  import opened Angles

  datatype Point = Point(offset: real, residual: real)

  /** The residual of an offset with nothing to compare. */
  const WORST: real := 1000000000.0

  const MATCHED: real := 100000000.0

  // ----- the three smallest -----

  datatype Top = Top(best: Point, second: Point, third: Point)

  const NO_TOP := Top(Point(0.0, WORST), Point(0.0, WORST), Point(0.0, WORST))

  function Promote(t: Top, p: Point): Top {
    if p.residual < t.best.residual then Top(p, t.best, t.second)
    else if p.residual < t.second.residual then Top(t.best, p, t.second)
    else if p.residual < t.third.residual then Top(t.best, t.second, p)
    else t
  }

  /** Best, second and third of the first n points. */
  function TopOf(curve: seq<Point>, n: nat): Top
    requires n <= |curve|
  {
    if n == 0 then NO_TOP else Promote(TopOf(curve, n - 1), curve[n - 1])
  }

  /** The point that drops out when p joins. */
  function Loser(t: Top, p: Point): Point { if p.residual < t.third.residual then t.third else p }

  /** All of the first n points and the three sentinels, without best, second and third. */
  ghost function Rest(curve: seq<Point>, n: nat): multiset<Point>
    requires n <= |curve|
  {
    if n == 0 then multiset{} else Rest(curve, n - 1) + multiset{Loser(TopOf(curve, n - 1), curve[n - 1])}
  }

  ghost function Three(t: Top): multiset<Point> { multiset{t.best} + multiset{t.second} + multiset{t.third} }

  ghost predicate Ordered(t: Top) { t.best.residual <= t.second.residual <= t.third.residual }

  lemma {:induction false} Reordered(a: multiset<Point>, b: multiset<Point>, c: multiset<Point>, d: multiset<Point>)
    ensures d + a + b + c == a + b + c + d && a + d + b + c == a + b + c + d && a + b + d + c == a + b + c + d
  {}

  lemma {:induction false} PromoteKeeps(t: Top, p: Point)
    requires Ordered(t)
    ensures Ordered(Promote(t, p)) && Three(Promote(t, p)) + multiset{Loser(t, p)} == Three(t) + multiset{p}
    ensures Promote(t, p).third.residual <= t.third.residual && Loser(t, p).residual >= Promote(t, p).third.residual
  {
    PromoteKeepsAll(t, p);
    hide Three;
  }

  lemma {:induction false} PromoteKeepsAll(t: Top, p: Point)
    requires Ordered(t)
    ensures Three(Promote(t, p)) + multiset{Loser(t, p)} == Three(t) + multiset{p}
  {
    Reordered(multiset{t.best}, multiset{t.second}, multiset{t.third}, multiset{p});
  }

  lemma {:induction false} Exchange(all: multiset<Point>, three: multiset<Point>, rest: multiset<Point>,
                                    three': multiset<Point>, p: Point, loser: Point)
    requires all == three + rest && three' + multiset{loser} == three + multiset{p}
    ensures all + multiset{p} == three' + (rest + multiset{loser})
  {
    assert all + multiset{p} == (three + multiset{p}) + rest;
  }

  /** Best, second and third are in order, they and the rest together are exactly the curve and three
      sentinels, and nothing in the rest is smaller than the third. */
  lemma {:induction false} TopIsSmallest(curve: seq<Point>, n: nat)
    requires n <= |curve|
    ensures var t := TopOf(curve, n);
            && Ordered(t) && multiset(curve[..n]) + Three(NO_TOP) == Three(t) + Rest(curve, n)
            && forall p :: p in Rest(curve, n) ==> p.residual >= t.third.residual
  {
    hide Three, Promote, Loser;
    if n > 0 {
      TopIsSmallest(curve, n - 1);
      var t, p := TopOf(curve, n - 1), curve[n - 1];
      var all, rest := multiset(curve[..n - 1]) + Three(NO_TOP), Rest(curve, n - 1);
      PromoteKeeps(t, p);
      PrefixGrows(curve, n, Three(NO_TOP));
      Exchange(all, Three(t), rest, Three(Promote(t, p)), p, Loser(t, p));
      RestGrows(rest, Loser(t, p), t.third.residual, Promote(t, p).third.residual);
    } else {
      assert curve[..0] == [];
    }
  }

  lemma {:induction false} PrefixGrows(curve: seq<Point>, n: nat, more: multiset<Point>)
    requires 0 < n <= |curve|
    ensures multiset(curve[..n]) + more == multiset(curve[..n - 1]) + more + multiset{curve[n - 1]}
  {
    assert curve[..n] == curve[..n - 1] + [curve[n - 1]];
  }

  lemma {:induction false} RestGrows(rest: multiset<Point>, p: Point, before: real, bound: real)
    requires (forall q :: q in rest ==> q.residual >= before) && bound <= before && p.residual >= bound
    ensures forall q :: q in rest + multiset{p} ==> q.residual >= bound
  {}

  lemma {:induction false} TopOnlyFalls(curve: seq<Point>, m: nat, n: nat)
    requires m <= n <= |curve|
    ensures Ordered(TopOf(curve, n)) && TopOf(curve, n).best.residual <= TopOf(curve, m).best.residual
    ensures TopOf(curve, n).second.residual <= TopOf(curve, m).second.residual
    ensures TopOf(curve, n).third.residual <= TopOf(curve, m).third.residual
    decreases n
  {
    if n > 0 {
      TopOnlyFalls(curve, if m < n then m else n - 1, n - 1);
    }
  }

  /** A residual below the sentinel pushes one more of the three below it. */
  lemma {:induction false} OneMoreBelow(curve: seq<Point>, i: nat)
    requires i < |curve| && Ordered(TopOf(curve, i)) && curve[i].residual < WORST
    ensures var t, u := TopOf(curve, i), TopOf(curve, i + 1);
            && u.best.residual < WORST && (t.best.residual < WORST ==> u.second.residual < WORST)
            && (t.second.residual < WORST ==> u.third.residual < WORST)
  {}

  lemma {:induction false} ThreeBelow(curve: seq<Point>, i: nat, j: nat, k: nat)
    requires i < j < k < |curve|
    requires curve[i].residual < WORST && curve[j].residual < WORST && curve[k].residual < WORST
    ensures TopOf(curve, |curve|).third.residual < WORST
  {
    hide TopOf;
    TopOnlyFalls(curve, 0, i);
    OneMoreBelow(curve, i);
    TopOnlyFalls(curve, i + 1, j);
    OneMoreBelow(curve, j);
    TopOnlyFalls(curve, j + 1, k);
    OneMoreBelow(curve, k);
    TopOnlyFalls(curve, k + 1, |curve|);
  }

  /** When three residuals are below the sentinel, the three found are all points of the curve. */
  lemma {:induction false} ThreeRealResiduals(curve: seq<Point>, i: nat, j: nat, k: nat)
    requires i < j < k < |curve|
    requires curve[i].residual < WORST && curve[j].residual < WORST && curve[k].residual < WORST
    ensures var t := TopOf(curve, |curve|);
            t.third.residual < WORST && t.best in curve && t.second in curve && t.third in curve
  {
    hide TopOf, Rest;
    TopIsSmallest(curve, |curve|);
    ThreeBelow(curve, i, j, k);
    var t := TopOf(curve, |curve|);
    assert curve[..|curve|] == curve;
    var all := multiset(curve) + Three(NO_TOP);
    assert t.best in all && t.second in all && t.third in all;
  }

  // ----- local minima -----

  ghost predicate Ascending(curve: seq<Point>) {
    forall i, j :: 0 <= i < j < |curve| ==> curve[i].offset < curve[j].offset
  }

  /** Not above either neighbour, and within reach of the best residual. */
  predicate IsMinimum(curve: seq<Point>, reach: real, i: int)
    requires 0 <= i < |curve|
  {
    && (i == 0 || curve[i].residual <= curve[i - 1].residual)
    && (i + 1 == |curve| || curve[i].residual <= curve[i + 1].residual)
    && curve[i].residual <= reach
  }

  /** The offset is more than gap away from all of the given ones. */
  predicate IsSeparate(offset: real, minima: seq<real>, gap: real) {
    forall k :: 0 <= k < |minima| ==> Abs(offset - minima[k]) > gap
  }

  /** The minima collected from the first n points. */
  function Minima(curve: seq<Point>, reach: real, gap: real, n: nat): seq<real>
    requires n <= |curve|
  {
    if n == 0 then []
    else
      var m := Minima(curve, reach, gap, n - 1);
      if IsMinimum(curve, reach, n - 1) && IsSeparate(curve[n - 1].offset, m, gap) then m + [curve[n - 1].offset] else m
  }

  /** A choice of windowed minima, in order, each more than gap after the one before. */
  ghost predicate IsChoice(curve: seq<Point>, reach: real, gap: real, choice: seq<nat>, n: nat)
    requires n <= |curve|
  {
    && (forall k :: 0 <= k < |choice| ==> choice[k] < n && IsMinimum(curve, reach, choice[k]))
    && (forall k, l :: 0 <= k < l < |choice| ==>
          choice[k] < choice[l] && Abs(curve[choice[l]].offset - curve[choice[k]].offset) > gap)
  }

  /** The collected offsets lie before x, each more than gap after the one before. */
  ghost predicate Behind(m: seq<real>, x: real, gap: real) {
    (forall k :: 0 <= k < |m| ==> m[k] < x) && forall k, l :: 0 <= k < l < |m| ==> m[l] - m[k] > gap
  }

  lemma {:induction false} BehindSnoc(m: seq<real>, x: real, y: real, gap: real)
    requires Behind(m, x, gap) && x < y && gap >= 0.0
    ensures Behind(m, y, gap) && (IsSeparate(x, m, gap) ==> Behind(m + [x], y, gap))
    ensures IsSeparate(x, m, gap) <==> (m == [] || m[|m| - 1] + gap < x)
  {}

  lemma {:induction false} MinimaAreBehind(curve: seq<Point>, reach: real, gap: real, n: nat, x: real)
    requires Ascending(curve) && n <= |curve| && gap >= 0.0 && (n > 0 ==> curve[n - 1].offset < x)
    ensures Behind(Minima(curve, reach, gap, n), x, gap)
  {
    if n > 0 {
      MinimaAreBehind(curve, reach, gap, n - 1, curve[n - 1].offset);
      hide IsMinimum, Ascending, IsSeparate, Behind;
      BehindSnoc(Minima(curve, reach, gap, n - 1), curve[n - 1].offset, x, gap);
    }
  }

  /** The collected offsets m outnumber the choice, or are as many and do not end after it. */
  ghost predicate Ahead(curve: seq<Point>, m: seq<real>, choice: seq<nat>) {
    && |choice| <= |m|
    && (0 < |choice| == |m| ==>
          var last := |choice| - 1; choice[last] < |curve| && m[last] <= curve[choice[last]].offset)
  }

  /** No choice of separated minima is longer than the one the program collects, and when one is as
      long, it does not end before it. */
  lemma {:induction false} GreedyStaysAhead(curve: seq<Point>, reach: real, gap: real, choice: seq<nat>, n: nat)
    requires Ascending(curve) && n <= |curve| && gap >= 0.0 && IsChoice(curve, reach, gap, choice, n)
    ensures Ahead(curve, Minima(curve, reach, gap, n), choice)
  {
    hide Minima, IsSeparate, IsMinimum, Behind, IsChoice, Ascending, Ahead;
    if n == 0 {
      NoneToChoose(curve, reach, gap, choice);
    } else {
      MinimaNext(curve, reach, gap, n);
      var m0, x, last := Minima(curve, reach, gap, n - 1), curve[n - 1].offset, |choice| - 1;
      if last >= 0 && choice[last] == n - 1 {
        OffsetsAreBefore(curve, n);
        MinimaAreBehind(curve, reach, gap, n - 1, x);
        ChoicePrefix(curve, reach, gap, choice, n);
        GreedyStaysAhead(curve, reach, gap, choice[..last], n - 1);
        AheadWithNext(curve, m0, gap, choice);
      } else {
        ChoiceShrinks(curve, reach, gap, choice, n);
        GreedyStaysAhead(curve, reach, gap, choice, n - 1);
        AheadWithMore(curve, m0, x, choice);
      }
    }
  }

  lemma {:induction false} NoneToChoose(curve: seq<Point>, reach: real, gap: real, choice: seq<nat>)
    requires IsChoice(curve, reach, gap, choice, 0)
    ensures Ahead(curve, Minima(curve, reach, gap, 0), choice)
  {
    hide IsChoice;
    if choice != [] {
      FirstIsBelow(curve, reach, gap, choice, 0);
    }
  }

  lemma {:induction false} FirstIsBelow(curve: seq<Point>, reach: real, gap: real, choice: seq<nat>, n: nat)
    requires n <= |curve| && IsChoice(curve, reach, gap, choice, n) && choice != []
    ensures choice[0] < n
  {}

  lemma {:induction false} OffsetsAreBefore(curve: seq<Point>, n: nat)
    requires Ascending(curve) && 0 < n <= |curve|
    ensures n > 1 ==> curve[n - 2].offset < curve[n - 1].offset
  {}

  lemma {:induction false} AheadWithMore(curve: seq<Point>, m: seq<real>, x: real, choice: seq<nat>)
    requires Ahead(curve, m, choice)
    ensures Ahead(curve, m + [x], choice)
  {}

  lemma {:induction false} AheadWithNext(curve: seq<Point>, m0: seq<real>, gap: real, choice: seq<nat>)
    requires choice != [] && choice[|choice| - 1] < |curve| && gap >= 0.0
    requires Behind(m0, curve[choice[|choice| - 1]].offset, gap) && Ahead(curve, m0, choice[..|choice| - 1])
    requires |choice| > 1 ==> choice[|choice| - 2] < |curve|
                              && curve[choice[|choice| - 2]].offset + gap < curve[choice[|choice| - 1]].offset
    ensures var x := curve[choice[|choice| - 1]].offset;
            Ahead(curve, if IsSeparate(x, m0, gap) then m0 + [x] else m0, choice)
  {
    hide Behind, IsSeparate;
    var x, k := curve[choice[|choice| - 1]].offset, |choice| - 1;
    TakeStep(m0, x, gap, k, if k > 0 then curve[choice[k - 1]].offset else x);
  }

  lemma {:induction false} MinimaNext(curve: seq<Point>, reach: real, gap: real, n: nat)
    requires 0 < n <= |curve|
    ensures var m, x := Minima(curve, reach, gap, n - 1), curve[n - 1].offset;
            Minima(curve, reach, gap, n)
            == if IsMinimum(curve, reach, n - 1) && IsSeparate(x, m, gap) then m + [x] else m
  {}

  /** A choice whose last element is not the newest point was there before. */
  lemma {:induction false} ChoiceShrinks(curve: seq<Point>, reach: real, gap: real, choice: seq<nat>, n: nat)
    requires 0 < n <= |curve| && IsChoice(curve, reach, gap, choice, n)
    requires choice != [] ==> choice[|choice| - 1] != n - 1
    ensures IsChoice(curve, reach, gap, choice, n - 1)
  {
    hide IsMinimum;
  }

  lemma {:induction false} TakeStep(m0: seq<real>, x: real, gap: real, k: nat, prev: real)
    requires Behind(m0, x, gap) && gap >= 0.0 && k <= |m0| && (0 < k == |m0| ==> m0[k - 1] <= prev && prev + gap < x)
    ensures var m := if IsSeparate(x, m0, gap) then m0 + [x] else m0; k + 1 <= |m| && (k + 1 == |m| ==> m[k] <= x)
  {
    BehindSnoc(m0, x, x + 1.0, gap);
  }

  lemma {:induction false} ChoicePrefix(curve: seq<Point>, reach: real, gap: real, choice: seq<nat>, n: nat)
    requires 0 < n <= |curve| && IsChoice(curve, reach, gap, choice, n) && choice != [] && choice[|choice| - 1] == n - 1
    requires Ascending(curve)
    ensures IsChoice(curve, reach, gap, choice[..|choice| - 1], n - 1) && IsMinimum(curve, reach, n - 1)
    ensures |choice| > 1 ==>
              choice[|choice| - 2] < |curve| && curve[choice[|choice| - 2]].offset + gap < curve[n - 1].offset
  {
    hide IsMinimum;
  }

  /** Where on the curve the collected offsets stand. */
  ghost function ChoiceOf(curve: seq<Point>, reach: real, gap: real, n: nat): seq<nat>
    requires n <= |curve|
  {
    if n == 0 then []
    else
      var c := ChoiceOf(curve, reach, gap, n - 1);
      var m := Minima(curve, reach, gap, n - 1);
      if IsMinimum(curve, reach, n - 1) && IsSeparate(curve[n - 1].offset, m, gap) then c + [n - 1] else c
  }

  /** The offsets m are those of the choice c. */
  ghost predicate Shows(curve: seq<Point>, reach: real, gap: real, c: seq<nat>, m: seq<real>, n: nat)
    requires n <= |curve|
  {
    IsChoice(curve, reach, gap, c, n) && |c| == |m| && forall k :: 0 <= k < |m| ==> m[k] == curve[c[k]].offset
  }

  lemma {:induction false} ShowsSnoc(curve: seq<Point>, reach: real, gap: real, c: seq<nat>, m: seq<real>, n: nat)
    requires 0 < n <= |curve| && Shows(curve, reach, gap, c, m, n - 1)
    ensures Shows(curve, reach, gap, c, m, n)
    ensures IsMinimum(curve, reach, n - 1) && IsSeparate(curve[n - 1].offset, m, gap) ==>
              Shows(curve, reach, gap, c + [n - 1], m + [curve[n - 1].offset], n)
  {
    hide IsMinimum;
    if IsMinimum(curve, reach, n - 1) && IsSeparate(curve[n - 1].offset, m, gap) {
      assert IsChoice(curve, reach, gap, c + [n - 1], n);
    }
  }

  /** The collected minima are themselves a choice of separated minima. */
  lemma {:induction false} MinimaAreAChoice(curve: seq<Point>, reach: real, gap: real, n: nat)
    requires n <= |curve|
    ensures Shows(curve, reach, gap, ChoiceOf(curve, reach, gap, n), Minima(curve, reach, gap, n), n)
  {
    if n > 0 {
      hide IsMinimum, IsSeparate, Shows;
      MinimaAreAChoice(curve, reach, gap, n - 1);
      ShowsSnoc(curve, reach, gap, ChoiceOf(curve, reach, gap, n - 1), Minima(curve, reach, gap, n - 1), n);
    }
  }

  /** The number of minima the program reports is the largest number of windowed minima that can be
      chosen with more than gap between any two. */
  lemma {:induction false} MinimaAreMost(curve: seq<Point>, reach: real, gap: real)
    requires Ascending(curve) && gap >= 0.0
    ensures var m := Minima(curve, reach, gap, |curve|);
            && (exists choice :: IsChoice(curve, reach, gap, choice, |curve|) && |choice| == |m|)
            && forall choice :: IsChoice(curve, reach, gap, choice, |curve|) ==> |choice| <= |m|
  {
    hide Minima, ChoiceOf, IsChoice, Ascending;
    MinimaAreAChoice(curve, reach, gap, |curve|);
    forall c | IsChoice(curve, reach, gap, c, |curve|) ensures |c| <= |Minima(curve, reach, gap, |curve|)| {
      GreedyStaysAhead(curve, reach, gap, c, |curve|);
    }
  }

  /** Two windowed minima more than gap apart. */
  ghost predicate IsPair(curve: seq<Point>, reach: real, gap: real, i: nat, j: nat) {
    && i < j < |curve| && IsMinimum(curve, reach, i) && IsMinimum(curve, reach, j)
    && curve[j].offset - curve[i].offset > gap
  }

  lemma {:induction false} PairGivesTwo(curve: seq<Point>, reach: real, gap: real, i: nat, j: nat)
    requires Ascending(curve) && gap >= 0.0 && IsPair(curve, reach, gap, i, j)
    ensures |Minima(curve, reach, gap, |curve|)| >= 2
  {
    hide Minima, IsMinimum, Ascending;
    GreedyStaysAhead(curve, reach, gap, [i, j], |curve|);
  }

  /** At least two are reported exactly when two windowed minima are more than gap apart. */
  lemma {:induction false} MultimodalIff(curve: seq<Point>, reach: real, gap: real)
    requires Ascending(curve) && gap >= 0.0
    ensures |Minima(curve, reach, gap, |curve|)| >= 2 <==> exists i: nat, j: nat :: IsPair(curve, reach, gap, i, j)
  {
    hide Minima, ChoiceOf, IsMinimum;
    var c := ChoiceOf(curve, reach, gap, |curve|);
    MinimaAreAChoice(curve, reach, gap, |curve|);
    if |c| >= 2 {
      assert c[0] < c[1];
      assert IsPair(curve, reach, gap, c[0], c[1]);
    }
    if i: nat, j: nat :| IsPair(curve, reach, gap, i, j) {
      PairGivesTwo(curve, reach, gap, i, j);
    }
  }

  // ----- the matcher -----

  function OffsetAt(step: real, i: int): real { (i as real) * step }

  /** The first n points of the curve: offsets from -steps * step upwards. */
  function CurveOf(f: real -> real, step: real, steps: int, n: nat): (c: seq<Point>)
    ensures |c| == n
  {
    if n == 0 then []
    else
      var offset := OffsetAt(step, n - 1 - steps);
      CurveOf(f, step, steps, n - 1) + [Point(offset, f(offset))]
  }

  lemma {:induction false} CurveAscends(f: real -> real, step: real, steps: int, n: nat)
    requires step > 0.0
    ensures var c := CurveOf(f, step, steps, n);
            && Ascending(c)
            && forall i :: 0 <= i < n ==>
                 c[i].offset == OffsetAt(step, i - steps) && c[i].residual == f(c[i].offset)
  {
    if n > 0 {
      CurveAscends(f, step, steps, n - 1);
      var c0 := CurveOf(f, step, steps, n - 1);
      forall i | 0 <= i < n - 1 ensures c0[i].offset < OffsetAt(step, n - 1 - steps) {
        OffsetsAscend(i - steps, n - 1 - steps, step);
      }
      hide OffsetAt;
    }
  }

  lemma {:induction false} OffsetsAscend(i: int, j: int, step: real)
    requires i < j && step > 0.0
    ensures OffsetAt(step, i) < OffsetAt(step, j)
  {
    assert ((j as real) - (i as real)) * step > 0.0;
  }

  lemma {:induction false} OffsetNext(step: real, i: int)
    ensures OffsetAt(step, 0) == 0.0 && OffsetAt(step, i + 1) == OffsetAt(step, i) + step
  {}

  /** The offsets lie one step apart, and the one in the middle is zero. */
  lemma {:induction false} CurveIsGrid(f: real -> real, step: real, steps: nat, n: nat)
    requires step > 0.0
    ensures var c := CurveOf(f, step, steps, n);
            && (forall i :: 0 < i < n ==> c[i].offset == c[i - 1].offset + step)
            && (steps < n ==> c[steps].offset == 0.0)
  {
    hide OffsetAt, CurveOf;
    CurveAscends(f, step, steps, n);
    OffsetNext(step, 0);
    var c := CurveOf(f, step, steps, n);
    forall i | 0 < i < n ensures c[i].offset == c[i - 1].offset + step {
      OffsetNext(step, i - 1 - steps);
    }
  }

  datatype Result = Result(matched: bool, best: Point, secondResidual: real, thirdResidual: real, margin: real,
                           numMinima: nat, multimodal: bool)

  method SummarizeCurve(curve: seq<Point>, best: real, gap: real, window: real) returns (minima: seq<real>)
    ensures minima == Minima(curve, best + window, gap, |curve|)
  {
    hide Minima;
    minima := [];
    NoMinimaYet(curve, best + window, gap);
    for i := 0 to |curve|
      invariant minima == Minima(curve, best + window, gap, i)
    {
      MinimaNext(curve, best + window, gap, i + 1);
      var lowerPrev := i == 0 || curve[i].residual <= curve[i - 1].residual;
      var lowerNext := i + 1 == |curve| || curve[i].residual <= curve[i + 1].residual;
      if lowerPrev && lowerNext && curve[i].residual <= best + window {
        assert IsMinimum(curve, best + window, i);
        var separated := true;
        for k := 0 to |minima|
          invariant separated <==> forall j :: 0 <= j < k ==> Abs(curve[i].offset - minima[j]) > gap
        {
          if Abs(curve[i].offset - minima[k]) <= gap { separated := false; }
        }
        if separated { minima := minima + [curve[i].offset]; }
      }
    }
  }

  lemma {:induction false} NoMinimaYet(curve: seq<Point>, reach: real, gap: real)
    ensures Minima(curve, reach, gap, 0) == []
  {}

  /** Sweeps the offsets, keeping the three smallest residuals, and counts the separated minima. */
  method MatchScan(f: real -> real, search: real, step: real, gap: real, window: real)
    returns (r: Result, curve: seq<Point>)
    requires search > 0.0 && step > 0.0 && gap > 0.0 && window >= 0.0
    ensures var steps := (search / step + 0.000000001).Floor;
            steps >= 0 && curve == CurveOf(f, step, steps, 2 * steps + 1) && curve != []
    ensures var t := TopOf(curve, |curve|);
            && r.best == t.best && r.matched == (t.best.residual < MATCHED)
            && r.secondResidual == (if t.second.residual < MATCHED then t.second.residual else t.best.residual)
            && r.thirdResidual == (if t.third.residual < MATCHED then t.third.residual else r.secondResidual)
            && r.margin == r.secondResidual - r.best.residual
    ensures r.numMinima == |Minima(curve, r.best.residual + window, gap, |curve|)| && r.multimodal == (r.numMinima >= 2)
  {
    hide Minima, OffsetAt, TopOf, CurveOf;
    NothingYet(f, step);
    var q := search / step;
    assert q >= 0.0;
    var steps := (q + 0.000000001).Floor;
    var t := NO_TOP;
    curve := [];
    var i := -steps;
    while i <= steps
      invariant -steps <= i <= steps + 1 && curve == CurveOf(f, step, steps, i + steps)
      invariant t == TopOf(curve, |curve|)
    {
      var offset := OffsetAt(step, i);
      var p := Point(offset, f(offset));
      TopSnoc(curve, p);
      CurveNext(f, step, steps, i + steps);
      curve := curve + [p];
      if p.residual < t.best.residual {
        t := Top(p, t.best, t.second);
      } else if p.residual < t.second.residual {
        t := Top(t.best, p, t.second);
      } else if p.residual < t.third.residual {
        t := Top(t.best, t.second, p);
      }
      i := i + 1;
    }
    var best, second, third := t.best.residual, t.second.residual, t.third.residual;
    var secondResidual := if second < MATCHED then second else best;
    var minima := SummarizeCurve(curve, best, gap, window);
    r := Result(best < MATCHED, t.best, secondResidual, if third < MATCHED then third else secondResidual,
                secondResidual - best, |minima|, |minima| >= 2);
  }

  lemma {:induction false} NothingYet(f: real -> real, step: real)
    ensures TopOf([], 0) == NO_TOP && forall steps :: CurveOf(f, step, steps, 0) == []
  {}

  lemma {:induction false} TopExtends(curve: seq<Point>, p: Point, n: nat)
    requires n <= |curve|
    ensures TopOf(curve + [p], n) == TopOf(curve, n)
  {
    if n > 0 {
      TopExtends(curve, p, n - 1);
    }
  }

  lemma {:induction false} TopSnoc(curve: seq<Point>, p: Point)
    ensures TopOf(curve + [p], |curve| + 1) == Promote(TopOf(curve, |curve|), p)
  {
    TopExtends(curve, p, |curve|);
  }

  lemma {:induction false} CurveNext(f: real -> real, step: real, steps: int, n: nat)
    ensures var offset := OffsetAt(step, n - steps);
            CurveOf(f, step, steps, n + 1) == CurveOf(f, step, steps, n) + [Point(offset, f(offset))]
  {}

  /** A curve with a residual below the sentinel always has a windowed minimum: its best point. */
  lemma {:induction false} SomeMinimum(curve: seq<Point>, window: real, gap: real)
    requires Ascending(curve) && window >= 0.0 && gap >= 0.0
    requires exists i :: 0 <= i < |curve| && curve[i].residual < WORST
    ensures |Minima(curve, TopOf(curve, |curve|).best.residual + window, gap, |curve|)| >= 1
  {
    hide Minima;
    var best := TopOf(curve, |curve|).best;
    BestIsLeast(curve, |curve|);
    var k :| 0 <= k < |curve| && curve[k] == best;
    assert IsMinimum(curve, best.residual + window, k);
    assert IsChoice(curve, best.residual + window, gap, [k], |curve|);
    GreedyStaysAhead(curve, best.residual + window, gap, [k], |curve|);
  }

  lemma {:induction false} BestIsLeast(curve: seq<Point>, n: nat)
    requires n <= |curve|
    ensures var b := TopOf(curve, n).best;
            && (forall i :: 0 <= i < n ==> b.residual <= curve[i].residual)
            && (b == NO_TOP.best || exists i :: 0 <= i < n && curve[i] == b)
  {
    if n > 0 {
      BestIsLeast(curve, n - 1);
    }
  }
}
