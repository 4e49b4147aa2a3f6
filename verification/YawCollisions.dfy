/** Which configurations of the yaw matcher keep every finished curve separated, one configuration at a time
    (include/robot_slamd/active_scan/sparse_scan_yaw_matcher.hpp). */
module YawCollisions {
  import opened Angles
  import opened YawCurve
  import opened YawMatcher
  import opened YawMatching
  import opened YawSeparation

  // ----- yaws that do not depend on the fits -----

  function GridYaw(cfg: Config, i: nat): real { YawAt(-cfg.maxSearch, cfg.coarseStep, i) }

  /** The coarse sweep tries yaw i. */
  ghost predicate OnGrid(cfg: Config, i: nat)
    requires cfg.Valid()
  {
    i < SweepSize(-cfg.maxSearch, cfg.maxSearch, cfg.coarseStep) && InRange(GridYaw(cfg, i), cfg.maxSearch)
  }

  /** Yaw m of the refining sweep around yaw a of the coarse one. */
  function FineYaw(cfg: Config, a: nat, m: nat): real {
    YawAt(GridYaw(cfg, a) - cfg.refineWindow, cfg.refineStep, m)
  }

  ghost predicate OnFine(cfg: Config, a: nat, m: nat)
    requires cfg.Valid()
  {
    var lo, hi := GridYaw(cfg, a) - cfg.refineWindow, GridYaw(cfg, a) + cfg.refineWindow;
    m < SweepSize(lo, hi, cfg.refineStep) && InRange(FineYaw(cfg, a, m), cfg.maxSearch)
  }

  ghost predicate IsGridYaw(cfg: Config, x: real)
    requires cfg.Valid()
  {
    exists i: nat :: OnGrid(cfg, i) && x == GridYaw(cfg, i)
  }

  ghost predicate IsEarlier(cfg: Config, a: nat, m: nat, x: real)
    requires cfg.Valid()
  {
    exists k: nat :: k < m && OnFine(cfg, a, k) && x == FineYaw(cfg, a, k)
  }

  /** The fine yaw m around the coarse yaw a is near the coarse yaw b and near x, another coarse yaw or an
      earlier fine one, and b and x are not near each other. */
  ghost predicate Clash(cfg: Config, a: nat, m: nat, b: nat, x: real)
    requires cfg.Valid()
  {
    && OnGrid(cfg, a) && OnFine(cfg, a, m) && OnGrid(cfg, b) && (IsGridYaw(cfg, x) || IsEarlier(cfg, a, m, x))
    && Abs(GridYaw(cfg, b) - x) >= TINY
    && Abs(GridYaw(cfg, b) - FineYaw(cfg, a, m)) < TINY && Abs(x - FineYaw(cfg, a, m)) < TINY
  }

  ghost predicate HasClash(cfg: Config)
    requires cfg.Valid()
  {
    exists a: nat, m: nat, b: nat, x: real :: Clash(cfg, a, m, b, x)
  }

  // ----- the coarse curve -----

  /** The curve holds the first yaws of a sweep, one by one, with their fits. */
  ghost predicate IsPrefix(curve: seq<Candidate>, f: real -> Fit, lo: real, step: real) {
    forall i: nat :: i < |curve| ==> curve[i] == CandidateAt(f, YawAt(lo, step, i))
  }

  /** In steps of at least TINY a first sweep keeps every yaw in range that it tries. */
  lemma {:induction false} SweepKeepsAll(f: real -> Fit, lo: real, step: real, max: real, n: nat)
    requires step >= TINY && -max <= lo
    ensures var r := Swept([], f, lo, step, max, n);
            && |r| <= n && IsPrefix(r, f, lo, step)
            && forall i: nat :: i < n ==> (InRange(YawAt(lo, step, i), max) <==> i < |r|)
  {
    if n > 0 {
      SweepKeepsAll(f, lo, step, max, n - 1);
      var before, yaw := Swept([], f, lo, step, max, n - 1), YawAt(lo, step, n - 1);
      var c := CandidateAt(f, yaw);
      forall i: nat | i < n - 1 ensures YawAt(lo, step, i) <= yaw - step {
        YawsAscend(lo, step, i, n - 1);
      }
      hide YawAt;
      if InRange(yaw, max) {
        assert |before| == n - 1 by {
          if |before| < n - 1 {
            StaysInRange(lo, step, max, |before|, n - 1);
            assert false;
          }
        }
        assert FirstNear(before, c) == |before| by {
          assert forall i: nat :: i < |before| ==> !Near(before[i], c);
        }
        assert Swept([], f, lo, step, max, n) == before + [c];
      }
    }
  }

  lemma {:induction false} StaysInRange(lo: real, step: real, max: real, i: nat, n: nat)
    requires step >= 0.0 && -max <= lo && i <= n && InRange(YawAt(lo, step, n), max)
    ensures InRange(YawAt(lo, step, i), max)
  {
    assert (n - i) as real * step >= 0.0;
    assert i as real * step >= 0.0;
    assert n as real * step == i as real * step + (n - i) as real * step;
  }

  /** The coarse curve is the grid, whatever the fits. */
  lemma {:induction false} CoarseIsGrid(cfg: Config, f: real -> Fit)
    requires cfg.Valid() && cfg.coarseStep >= TINY
    ensures var c := Coarse(cfg, f);
            && (forall i: nat :: i < |c| <==> OnGrid(cfg, i))
            && (forall i: nat :: i < |c| ==> c[i] == CandidateAt(f, GridYaw(cfg, i)))
  {
    hide YawAt, SweepSize, InRange, Swept;
    var n := SweepSize(-cfg.maxSearch, cfg.maxSearch, cfg.coarseStep);
    SweepKeepsAll(f, -cfg.maxSearch, cfg.coarseStep, cfg.maxSearch, n);
  }

  // ----- no clash, no crowd -----

  /** What collides on the curve clashes in the configuration. */
  lemma {:induction false} CollisionIsClash(cfg: Config, f: real -> Fit)
    requires cfg.Valid() && cfg.coarseStep >= TINY && cfg.refine && Coarse(cfg, f) != []
    ensures Separated(Curve(cfg, f)) || HasClash(cfg)
  {
    var coarse, max := Coarse(cfg, f), cfg.maxSearch;
    var a, n := FirstTop(coarse), SweepSize(-max, max, cfg.coarseStep);
    var lo := Centre(cfg, f) - cfg.refineWindow;
    var k := SweepSize(lo, Centre(cfg, f) + cfg.refineWindow, cfg.refineStep);
    CoarseIsGrid(cfg, f);
    FirstSweepSeparated(f, -max, cfg.coarseStep, max, n);
    SeparatedOrCollision(coarse, f, lo, cfg.refineStep, max, k);
    hide Separated, Swept, SweepSize, FirstTop, YawAt, InRange, Coarse;
    if m: nat, b: nat, x: real :| m < k && Collides(coarse, lo, cfg.refineStep, max, m, b, x) {
      assert Clash(cfg, a, m, b, x) by {
        if IsOn(x, coarse) {
          var i := OnIndex(x, coarse);
          assert OnGrid(cfg, i);
        } else {
          var j: nat :| j < m && x == YawAt(lo, cfg.refineStep, j);
          assert OnFine(cfg, a, j);
        }
      }
    }
  }

  // ----- a clash crowds some curve -----

  /** The fit that prefers y to x, x to all yaws from the centre on, and those to all else. */
  function Favours(centre: real, x: real, y: real): real -> Fit {
    (v: real) => Fit(if v == y then 3.0 else if v == x then 2.0 else if v >= centre then 1.0 else 0.0, 0.0)
  }

  /** Prefers the clashing yaw, and before it x unless x is a coarse yaw. */
  ghost function ClashFit(cfg: Config, a: nat, m: nat, x: real): real -> Fit
    requires cfg.Valid()
  {
    var y := FineYaw(cfg, a, m);
    Favours(GridYaw(cfg, a), if IsGridYaw(cfg, x) then y else x, y)
  }

  lemma {:induction false} GridIsApart(cfg: Config, i: nat, j: nat)
    requires cfg.Valid() && cfg.coarseStep >= TINY && i != j
    ensures Abs(GridYaw(cfg, i) - GridYaw(cfg, j)) >= TINY
    ensures i < j <==> GridYaw(cfg, i) < GridYaw(cfg, j)
  {
    YawsAscend(-cfg.maxSearch, cfg.coarseStep, if i < j then i else j, if i < j then j else i);
  }

  /** The clashing yaw is not a coarse one. */
  lemma {:induction false} ClashIsOffGrid(cfg: Config, a: nat, m: nat, b: nat, x: real)
    requires cfg.Valid() && cfg.coarseStep >= TINY && Clash(cfg, a, m, b, x)
    ensures !IsGridYaw(cfg, FineYaw(cfg, a, m))
  {
    var y := FineYaw(cfg, a, m);
    hide GridYaw, FineYaw, OnFine, IsEarlier;
    if IsGridYaw(cfg, y) {
      var i: nat :| OnGrid(cfg, i) && y == GridYaw(cfg, i);
      if i != b { GridIsApart(cfg, i, b); }
      assert false;
    }
  }

  /** Around the preferred fits the coarse sweep finds yaw a best. */
  lemma {:induction false} ClashCentre(cfg: Config, a: nat, m: nat, b: nat, x: real)
    requires cfg.Valid() && cfg.coarseStep >= TINY && Clash(cfg, a, m, b, x)
    ensures var c := Coarse(cfg, ClashFit(cfg, a, m, x));
            c != [] && FirstTop(c) == a && Centre(cfg, ClashFit(cfg, a, m, x)) == GridYaw(cfg, a)
  {
    var f := ClashFit(cfg, a, m, x);
    var c := Coarse(cfg, f);
    CoarseIsGrid(cfg, f);
    ClashIsOffGrid(cfg, a, m, b, x);
    hide GridYaw, FineYaw, OnFine, IsEarlier, Coarse, FirstTop;
    assert OnGrid(cfg, a);
    forall i: nat | i < |c| ensures c[i].score == if i < a then 0.0 else 1.0 {
      assert OnGrid(cfg, i) && IsGridYaw(cfg, GridYaw(cfg, i));
      if i != a { GridIsApart(cfg, i, a); }
    }
    assert IsBest(c, a);
    BestIsUnique(c, FirstTop(c), a);
  }

  /** A coarse candidate gives way to the clashing yaw and, if near it, to x, and to no other yaw. */
  lemma {:induction false} GridResists(cfg: Config, a: nat, m: nat, b: nat, x: real, i: nat, v: real)
    requires cfg.Valid() && cfg.coarseStep >= TINY && Clash(cfg, a, m, b, x) && OnGrid(cfg, i)
    requires v != FineYaw(cfg, a, m) && (v == x ==> i == b || IsGridYaw(cfg, x))
    ensures var f := ClashFit(cfg, a, m, x);
            var z, c := CandidateAt(f, GridYaw(cfg, i)), CandidateAt(f, v);
            c.score <= z.score || !Near(z, c)
  {
    ClashIsOffGrid(cfg, a, m, b, x);
    hide GridYaw, FineYaw, OnFine, IsEarlier;
    assert IsGridYaw(cfg, GridYaw(cfg, i));
    if i != a { GridIsApart(cfg, i, a); }
  }

  function Before(cfg: Config, f: real -> Fit, a: nat, n: nat): seq<Candidate> {
    Swept(Coarse(cfg, f), f, GridYaw(cfg, a) - cfg.refineWindow, cfg.refineStep, cfg.maxSearch, n)
  }

  lemma {:induction false} FineAscends(cfg: Config, a: nat, k: nat, m: nat)
    requires cfg.Valid() && k < m
    ensures FineYaw(cfg, a, k) < FineYaw(cfg, a, m)
  {
    YawsAscend(GridYaw(cfg, a) - cfg.refineWindow, cfg.refineStep, k, m);
  }

  /** x, unless a coarse yaw, is a fine yaw before the clash. */
  lemma {:induction false} XIsBefore(cfg: Config, a: nat, m: nat, b: nat, x: real) returns (k: nat)
    requires cfg.Valid() && Clash(cfg, a, m, b, x) && !IsGridYaw(cfg, x)
    ensures k < m && OnFine(cfg, a, k) && x == FineYaw(cfg, a, k)
  {
    hide OnFine, FineYaw;
    k :| k < m && OnFine(cfg, a, k) && x == FineYaw(cfg, a, k);
  }

  /** A coarse candidate that x does not move is still in place just before the clash. */
  lemma {:induction false} GridIsKept(cfg: Config, a: nat, m: nat, b: nat, x: real, i: nat)
    requires cfg.Valid() && cfg.coarseStep >= TINY && Clash(cfg, a, m, b, x) && OnGrid(cfg, i)
    requires i == b || IsGridYaw(cfg, x)
    ensures var f := ClashFit(cfg, a, m, x);
            var r := Before(cfg, f, a, m);
            i < |r| && r[i] == CandidateAt(f, GridYaw(cfg, i))
  {
    var f, lo := ClashFit(cfg, a, m, x), GridYaw(cfg, a) - cfg.refineWindow;
    CoarseIsGrid(cfg, f);
    hide YawAt, GridYaw, CandidateAt, Near, Clash, IsGridYaw, ClashFit, OnGrid, Coarse, Swept;
    SweptStarts(Coarse(cfg, f), f, lo, cfg.refineStep, cfg.maxSearch);
    forall k: nat | k < m
      ensures var z, c := CandidateAt(f, GridYaw(cfg, i)), CandidateAt(f, YawAt(lo, cfg.refineStep, k));
              c.score <= z.score || !Near(z, c)
    {
      FineAscends(cfg, a, k, m);
      GridResists(cfg, a, m, b, x, i, FineYaw(cfg, a, k));
    }
    SweptKeeps(Coarse(cfg, f), f, lo, cfg.refineStep, cfg.maxSearch, 0, m, i);
  }

  /** What the sweep has left just before yaw n is no better than any bound on the fits of what was tried. */
  lemma {:induction false} ScoresBefore(cfg: Config, f: real -> Fit, a: nat, n: nat, top: real)
    requires cfg.Valid() && cfg.coarseStep >= TINY
    requires forall i: nat :: OnGrid(cfg, i) ==> f(GridYaw(cfg, i)).score <= top
    requires forall k: nat :: k < n ==> f(FineYaw(cfg, a, k)).score <= top
    ensures forall z :: z in Before(cfg, f, a, n) ==> z.score <= top
  {
    CoarseIsGrid(cfg, f);
    var lo := GridYaw(cfg, a) - cfg.refineWindow;
    forall k: nat | k < n ensures f(YawAt(lo, cfg.refineStep, k)).score <= top {
      assert f(FineYaw(cfg, a, k)).score <= top;
    }
    hide YawAt;
    ScoresOfSweep(Coarse(cfg, f), f, lo, cfg.refineStep, cfg.maxSearch, n, top);
  }

  lemma {:induction false} ScoresOfSweep(curve: seq<Candidate>, f: real -> Fit, lo: real, step: real, max: real,
                                         n: nat, top: real)
    requires forall i: nat :: i < |curve| ==> curve[i].score <= top
    requires forall k: nat :: k < n ==> f(YawAt(lo, step, k)).score <= top
    ensures forall z :: z in Swept(curve, f, lo, step, max, n) ==> z.score <= top
  {
    hide YawAt, InRange, Added;
    if n > 0 {
      ScoresOfSweep(curve, f, lo, step, max, n - 1, top);
      AddedElements(Swept(curve, f, lo, step, max, n - 1), CandidateAt(f, YawAt(lo, step, n - 1)));
    }
  }

  /** A candidate better than the whole curve is taken in. */
  lemma {:induction false} BetterIsAdded(curve: seq<Candidate>, c: Candidate) returns (p: nat)
    requires forall z :: z in curve ==> z.score < c.score
    ensures p < |Added(curve, c)| && Added(curve, c)[p] == c
  {
    p := FirstNear(curve, c);
    hide Near;
  }

  /** A candidate better than the whole curve and near two elements ends up near another element. */
  lemma {:induction false} BetterCrowds(curve: seq<Candidate>, c: Candidate, i: nat, j: nat) returns (p: nat, q: nat)
    requires i < |curve| && j < |curve| && i != j && Near(curve[i], c) && Near(curve[j], c)
    requires forall z :: z in curve ==> z.score < c.score
    ensures (q == i || q == j) && p != q && p < |Added(curve, c)| && q < |Added(curve, c)|
    ensures Added(curve, c)[p] == c && Added(curve, c)[q] == curve[q]
  {
    p := FirstNear(curve, c);
    q := if p == i then j else i;
    hide Near;
  }

  /** Just before the clash x is in place as well. */
  lemma {:induction false} XIsKept(cfg: Config, a: nat, m: nat, b: nat, x: real) returns (p: nat)
    requires cfg.Valid() && cfg.coarseStep >= TINY && Clash(cfg, a, m, b, x)
    ensures var f := ClashFit(cfg, a, m, x);
            var r := Before(cfg, f, a, m);
            p < |r| && r[p] == CandidateAt(f, x)
  {
    if IsGridYaw(cfg, x) {
      hide Clash, Before;
      var i: nat :| OnGrid(cfg, i) && x == GridYaw(cfg, i);
      GridIsKept(cfg, a, m, b, x, i);
      p := i;
    } else {
      var k := XIsBefore(cfg, a, m, b, x);
      hide *;
      p := XIsTaken(cfg, a, m, b, x, k);
      XStays(cfg, a, m, b, x, k, p);
    }
  }

  lemma {:induction false} XStays(cfg: Config, a: nat, m: nat, b: nat, x: real, k: nat, p: nat)
    requires cfg.Valid() && cfg.coarseStep >= TINY && Clash(cfg, a, m, b, x)
    requires !IsGridYaw(cfg, x) && k < m && x == FineYaw(cfg, a, k)
    requires var r := Before(cfg, ClashFit(cfg, a, m, x), a, k + 1);
             p < |r| && r[p] == CandidateAt(ClashFit(cfg, a, m, x), x)
    ensures var r := Before(cfg, ClashFit(cfg, a, m, x), a, m);
            p < |r| && r[p] == CandidateAt(ClashFit(cfg, a, m, x), x)
  {
    var f, lo := ClashFit(cfg, a, m, x), GridYaw(cfg, a) - cfg.refineWindow;
    FitOfX(cfg, a, m, b, x, k);
    hide YawAt, Clash, IsGridYaw, OnGrid, OnFine, IsEarlier, Coarse, ClashFit, GridYaw, Near, Swept;
    forall j: nat | k < j < m ensures CandidateAt(f, YawAt(lo, cfg.refineStep, j)).score <= 1.0 {
      assert f(FineYaw(cfg, a, j)).score <= 1.0;
    }
    hide FineYaw;
    SweptKeeps(Coarse(cfg, f), f, lo, cfg.refineStep, cfg.maxSearch, k + 1, m, p);
  }

  /** The fits around an x that is no coarse yaw. */
  lemma {:induction false} FitOfX(cfg: Config, a: nat, m: nat, b: nat, x: real, k: nat)
    requires cfg.Valid() && cfg.coarseStep >= TINY && Clash(cfg, a, m, b, x)
    requires !IsGridYaw(cfg, x) && k < m && x == FineYaw(cfg, a, k)
    ensures var f := ClashFit(cfg, a, m, x);
            && f(x).score == 2.0 && f(FineYaw(cfg, a, m)).score == 3.0
            && (forall i: nat :: OnGrid(cfg, i) ==> f(GridYaw(cfg, i)).score <= 1.0)
            && (forall j: nat :: j != k && j != m ==> f(FineYaw(cfg, a, j)).score <= 1.0)
  {
    ClashIsOffGrid(cfg, a, m, b, x);
    FineAscends(cfg, a, k, m);
    hide GridYaw, FineYaw, OnGrid, OnFine, IsEarlier, Clash;
    forall j: nat | j != k && j != m ensures FineYaw(cfg, a, j) != x && FineYaw(cfg, a, j) != FineYaw(cfg, a, m) {
      FineAscends(cfg, a, if j < k then j else k, if j < k then k else j);
      FineAscends(cfg, a, if j < m then j else m, if j < m then m else j);
    }
    assert forall i: nat :: OnGrid(cfg, i) ==> IsGridYaw(cfg, GridYaw(cfg, i));
  }

  lemma {:induction false} XIsTaken(cfg: Config, a: nat, m: nat, b: nat, x: real, k: nat) returns (p: nat)
    requires cfg.Valid() && cfg.coarseStep >= TINY && Clash(cfg, a, m, b, x)
    requires !IsGridYaw(cfg, x) && k < m && OnFine(cfg, a, k) && x == FineYaw(cfg, a, k)
    ensures var f := ClashFit(cfg, a, m, x);
            var r := Before(cfg, f, a, k + 1);
            p < |r| && r[p] == CandidateAt(f, x)
  {
    var f := ClashFit(cfg, a, m, x);
    FitOfX(cfg, a, m, b, x, k);
    hide Clash, IsGridYaw, OnGrid, IsEarlier, Coarse, ClashFit, GridYaw, Near, YawAt, SweepSize, InRange, Added;
    ScoresBefore(cfg, f, a, k, 1.0);
    p := BetterIsAdded(Before(cfg, f, a, k), CandidateAt(f, x));
  }

  /** Nothing beats the clashing yaw. */
  lemma {:induction false} ClashIsTop(cfg: Config, a: nat, m: nat, b: nat, x: real)
    requires cfg.Valid() && cfg.coarseStep >= TINY && Clash(cfg, a, m, b, x)
    ensures var f := ClashFit(cfg, a, m, x);
            && f(FineYaw(cfg, a, m)).score == 3.0 && (forall v :: f(v).score <= 3.0)
            && forall z :: z in Before(cfg, f, a, m) ==> z.score < 3.0
  {
    var f := ClashFit(cfg, a, m, x);
    ClashIsOffGrid(cfg, a, m, b, x);
    hide GridYaw, FineYaw, OnGrid, OnFine, IsEarlier, Clash, Before;
    forall i: nat | OnGrid(cfg, i) ensures f(GridYaw(cfg, i)).score <= 2.0 {
      assert IsGridYaw(cfg, GridYaw(cfg, i));
    }
    forall k: nat | k < m ensures f(FineYaw(cfg, a, k)).score <= 2.0 {
      FineAscends(cfg, a, k, m);
    }
    ScoresBefore(cfg, f, a, m, 2.0);
  }

  /** After the clash neither b nor x moves any more. */
  lemma {:induction false} BothResist(cfg: Config, a: nat, m: nat, b: nat, x: real, n: nat)
    requires cfg.Valid() && cfg.coarseStep >= TINY && Clash(cfg, a, m, b, x)
    ensures var f, lo := ClashFit(cfg, a, m, x), GridYaw(cfg, a) - cfg.refineWindow;
            && Resists(CandidateAt(f, GridYaw(cfg, b)), f, lo, cfg.refineStep, m + 1, n)
            && Resists(CandidateAt(f, x), f, lo, cfg.refineStep, m + 1, n)
  {
    var f, lo := ClashFit(cfg, a, m, x), GridYaw(cfg, a) - cfg.refineWindow;
    hide YawAt, GridYaw, ClashFit, Near, IsGridYaw, IsEarlier, OnGrid, OnFine;
    forall j: nat | m < j < n
      ensures var d := CandidateAt(f, YawAt(lo, cfg.refineStep, j));
              var y, z := CandidateAt(f, GridYaw(cfg, b)), CandidateAt(f, x);
              (d.score <= y.score || !Near(y, d)) && (d.score <= z.score || !Near(z, d))
    {
      FineAscends(cfg, a, m, j);
      GridResists(cfg, a, m, b, x, b, FineYaw(cfg, a, j));
      XResists(cfg, a, m, b, x, j);
    }
  }

  lemma {:induction false} XResists(cfg: Config, a: nat, m: nat, b: nat, x: real, j: nat)
    requires cfg.Valid() && cfg.coarseStep >= TINY && Clash(cfg, a, m, b, x) && m < j
    ensures var f := ClashFit(cfg, a, m, x);
            var z, d := CandidateAt(f, x), CandidateAt(f, FineYaw(cfg, a, j));
            d.score <= z.score || !Near(z, d)
  {
    FineAscends(cfg, a, m, j);
    if IsGridYaw(cfg, x) {
      hide Clash, ClashFit, Near, OnGrid, GridYaw;
      var i: nat :| OnGrid(cfg, i) && x == GridYaw(cfg, i);
      GridResists(cfg, a, m, b, x, i, FineYaw(cfg, a, j));
    } else {
      var k := XIsBefore(cfg, a, m, b, x);
      FitOfX(cfg, a, m, b, x, k);
      hide ClashFit, Near, FineYaw, Clash;
    }
  }

  /** When the clashing yaw is tried, it comes to stand next to b or x. */
  lemma {:induction false} ClashEnters(cfg: Config, a: nat, m: nat, b: nat, x: real) returns (p: nat, q: nat)
    requires cfg.Valid() && cfg.coarseStep >= TINY && Clash(cfg, a, m, b, x)
    ensures var f := ClashFit(cfg, a, m, x);
            var r := Before(cfg, f, a, m + 1);
            && p < |r| && q < |r| && p != q && Near(r[p], r[q]) && r[p] == CandidateAt(f, FineYaw(cfg, a, m))
            && (r[q] == CandidateAt(f, GridYaw(cfg, b)) || r[q] == CandidateAt(f, x))
  {
    var f, lo := ClashFit(cfg, a, m, x), GridYaw(cfg, a) - cfg.refineWindow;
    var before, c := Before(cfg, f, a, m), CandidateAt(f, FineYaw(cfg, a, m));
    GridIsKept(cfg, a, m, b, x, b);
    var i := XIsKept(cfg, a, m, b, x);
    ClashIsTop(cfg, a, m, b, x);
    hide YawAt, GridYaw, ClashFit, IsGridYaw, IsEarlier, OnGrid, Added, SweepSize, Coarse;
    p, q := BetterCrowds(before, c, b, i);
    SweptNext(Coarse(cfg, f), f, lo, cfg.refineStep, cfg.maxSearch, m);
    hide Swept;
  }

  /** The clashing yaw and its neighbour stay on the curve to the end. */
  lemma {:induction false} ClashCrowds(cfg: Config, a: nat, m: nat, b: nat, x: real, n: nat)
    requires cfg.Valid() && cfg.coarseStep >= TINY && Clash(cfg, a, m, b, x) && m < n
    ensures !Separated(Before(cfg, ClashFit(cfg, a, m, x), a, n))
  {
    var f, lo := ClashFit(cfg, a, m, x), GridYaw(cfg, a) - cfg.refineWindow;
    ClashIsTop(cfg, a, m, b, x);
    var p, q := ClashEnters(cfg, a, m, b, x);
    BothResist(cfg, a, m, b, x, n);
    hide Clash, YawAt, GridYaw, FineYaw, ClashFit, Swept, Coarse;
    SweptKeeps(Coarse(cfg, f), f, lo, cfg.refineStep, cfg.maxSearch, m + 1, n, p);
    SweptKeeps(Coarse(cfg, f), f, lo, cfg.refineStep, cfg.maxSearch, m + 1, n, q);
    NearBreaks(Before(cfg, f, a, n), p, q);
  }

  lemma {:induction false} NearBreaks(curve: seq<Candidate>, p: nat, q: nat)
    requires p < |curve| && q < |curve| && p != q && Near(curve[p], curve[q])
    ensures !Separated(curve)
  {}

  lemma {:induction false} ClashBreaks(cfg: Config, a: nat, m: nat, b: nat, x: real)
    requires cfg.Valid() && cfg.coarseStep >= TINY && cfg.refine && Clash(cfg, a, m, b, x)
    ensures !Separated(Curve(cfg, ClashFit(cfg, a, m, x)))
  {
    ClashCentre(cfg, a, m, b, x);
    var lo, hi := GridYaw(cfg, a) - cfg.refineWindow, GridYaw(cfg, a) + cfg.refineWindow;
    hide Coarse, Centre, Swept, ClashFit, GridYaw, Separated, FirstTop, SweepSize;
    ClashCrowds(cfg, a, m, b, x, SweepSize(lo, hi, cfg.refineStep));
  }

  /** A configuration with a coarse step of at least TINY keeps the finished curve separated for every fit
      exactly when it does not refine or has no clash. */
  lemma {:induction false} SeparatesIff(cfg: Config)
    requires cfg.Valid() && cfg.coarseStep >= TINY
    ensures (forall f: real -> Fit :: Separated(Curve(cfg, f))) <==> !cfg.refine || !HasClash(cfg)
  {
    hide Curve, Clash, ClashFit, Separated;
    if cfg.refine && HasClash(cfg) {
      var a: nat, m: nat, b: nat, x: real :| Clash(cfg, a, m, b, x);
      ClashBreaks(cfg, a, m, b, x);
    } else {
      forall f: real -> Fit ensures Separated(Curve(cfg, f)) {
        CoarseFindsCandidates(cfg, f);
        if cfg.refine { CollisionIsClash(cfg, f); } else { CurveIsSeparated(cfg, f); }
      }
    }
  }
}
