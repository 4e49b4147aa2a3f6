/** What the numbers and verdicts of a map-quality snapshot say about the events of its window
    (include/robot_slamd/mapping/map_quality.hpp). */
module QualityMeaning {
  import opened Angles
  import opened MapQuality

  // ----- the counts -----

  ghost function Where<T(!new)>(q: seq<T>, holds: T -> bool): set<nat> { set i: nat | i < |q| && holds(q[i]) }

  lemma {:induction false} WhereSnoc<T(!new)>(q: seq<T>, holds: T -> bool)
    requires q != []
    ensures var last := |q| - 1;
            |Where(q, holds)| == |Where(q[..last], holds)| + (if holds(q[last]) then 1 else 0)
  {
    var last := |q| - 1;
    var w, v: set<nat> := Where(q, holds), Where(q[..last], holds);
    if holds(q[last]) {
      assert w == v + {last};
    } else {
      assert w == v;
    }
  }

  lemma {:induction false} NumTofIsSize(q: seq<TofEvent>, k: TofKind, holds: TofEvent -> bool)
    requires forall e :: IsTof(k, e) <==> holds(e)
    ensures NumTof(q, k) == |Where(q, holds)|
  {
    hide IsTof;
    if q != [] {
      NumTofIsSize(q[..|q| - 1], k, holds);
      WhereSnoc(q, holds);
    } else {
      assert Where(q, holds) == {};
    }
  }

  lemma {:induction false} NumMapIsSize(q: seq<MapEvent>, updated: bool, holds: MapEvent -> bool)
    requires forall e :: holds(e) <==> if updated then e.updated else e.attempted
    ensures NumMap(q, updated) == |Where(q, holds)|
  {
    if q != [] {
      NumMapIsSize(q[..|q| - 1], updated, holds);
      WhereSnoc(q, holds);
    } else {
      assert Where(q, holds) == {};
    }
  }

  /** Each count is the number of events of the window that show it. */
  lemma {:induction false} CountsMean(cfg: Config, w: Window, g: Grid, s: Snapshot)
    requires cfg.Valid() && Tells(cfg, w, g, s)
    ensures s.validHits == |Where(w.tofs, (e: TofEvent) => e.validHit)|
    ensures s.rejected == |Where(w.tofs, (e: TofEvent) => e.rejected)|
    ensures s.invalid == |Where(w.tofs, (e: TofEvent) => e.confidence == 0)|
    ensures s.lowConfidence == |Where(w.tofs, (e: TofEvent) => e.confidence > 0 && e.confidence < cfg.minConfidence)|
    ensures s.frontHits == |Where(w.tofs, (e: TofEvent) => e.validHit && e.id.Front?)|
    ensures s.leftHits == |Where(w.tofs, (e: TofEvent) => e.validHit && e.id.Left?)|
    ensures s.rightHits == |Where(w.tofs, (e: TofEvent) => e.validHit && e.id.Right?)|
    ensures s.attempts == |Where(w.maps, (e: MapEvent) => e.attempted)|
    ensures s.updates == |Where(w.maps, (e: MapEvent) => e.updated)|
  {
    NumTofIsSize(w.tofs, Hits, (e: TofEvent) => e.validHit);
    NumTofIsSize(w.tofs, Rejects, (e: TofEvent) => e.rejected);
    NumTofIsSize(w.tofs, NoConfidence, (e: TofEvent) => e.confidence == 0);
    NumTofIsSize(w.tofs, LowConfidence(cfg.minConfidence),
                 (e: TofEvent) => e.confidence > 0 && e.confidence < cfg.minConfidence);
    NumTofIsSize(w.tofs, HitsOn(Front), (e: TofEvent) => e.validHit && e.id.Front?);
    NumTofIsSize(w.tofs, HitsOn(Left), (e: TofEvent) => e.validHit && e.id.Left?);
    NumTofIsSize(w.tofs, HitsOn(Right), (e: TofEvent) => e.validHit && e.id.Right?);
    NumMapIsSize(w.maps, false, (e: MapEvent) => e.attempted);
    NumMapIsSize(w.maps, true, (e: MapEvent) => e.updated);
    hide NumTof, NumMap, Where, ScoreOf, LevelOf, Recommends;
  }

  // ----- the judgement -----

  /** What a quantity contributes to the score: all of it from its target on, its share of the target below. */
  ghost predicate IsShare(part: real, value: real, target: real) {
    if target > 0.0 && value < target then part * target == value else part == 1.0
  }

  ghost function Factor(shortcoming: bool, factor: real): real { if shortcoming then factor else 1.0 }

  ghost function Times(x: real, y: real): real { x * y }

  /** A score with a factor for each shortcoming. */
  ghost function Reduced(x: real, few: bool, failed: bool, blind: bool): real {
    x * Factor(few, 0.5) * Factor(failed, 0.5) * Factor(blind, 0.6)
  }

  /** The score is the product of the share of valid hits, the share of map updates, and a factor for each
      shortcoming of the map. */
  ghost predicate IsScore(cfg: Config, s: Facts, score: real) {
    exists hits: real, updates: real ::
      && IsShare(hits, s.validRatio, cfg.minValidRatio) && IsShare(updates, s.updateRate, cfg.minUpdateRate)
      && score == Reduced(Times(hits, updates), s.occupied < cfg.minOccupied, s.allocFailures > 0, s.routes < 2)
  }

  lemma {:induction false} PositiveProduct(x: real, y: real)
    requires x > 0.0 && y > 0.0
    ensures x * y > 0.0
  {}

  lemma {:induction false} SameShare(part: real, q: real, target: real)
    ensures part == q ==> part * target == q * target
  {}

  lemma {:induction false} ShareMeans(value: real, target: real)
    requires target > 0.0 && value >= 0.0
    ensures IsShare(Clamp(value / target, 0.0, 1.0), value, target)
    ensures 0.0 <= Clamp(value / target, 0.0, 1.0) <= 1.0
  {
    var q := value / target;
    assert q * target == value;
    if q > 1.0 { PositiveProduct(q - 1.0, target); }
    if q < 1.0 { PositiveProduct(1.0 - q, target); }
    if q < 0.0 { PositiveProduct(-q, target); }
    if q == 1.0 { WholeOf(target); }
    SameShare(Clamp(q, 0.0, 1.0), q, target);
  }

  /** The share that the score uses for the hits and for the updates. */
  ghost function Share(value: real, target: real): real {
    if target > 0.0 && value < target then Clamp(value / target, 0.0, 1.0) else 1.0
  }

  lemma {:induction false} ShareIsShare(value: real, target: real)
    requires value >= 0.0
    ensures IsShare(Share(value, target), value, target) && 0.0 <= Share(value, target) <= 1.0
    ensures target > 0.0 ==> Clamp(value / target, 0.0, 1.0) == Share(value, target)
  {
    if target > 0.0 {
      ShareMeans(value, target);
      var part := Clamp(value / target, 0.0, 1.0);
      if value >= target { assert part == 1.0; }
    }
    hide Clamp;
  }

  lemma {:induction false} ProductBounds(a: real, b: real)
    requires 0.0 <= a <= 1.0 && 0.0 <= b <= 1.0
    ensures 0.0 <= Times(a, b) <= 1.0
  {
    Shrinks(a, b);
  }

  lemma {:induction false} ScoreIsProduct(cfg: Config, s: Facts)
    requires cfg.Valid() && s.samples > 0 && s.validRatio >= 0.0 && s.updateRate >= 0.0
    ensures IsScore(cfg, s, ScoreOf(cfg, s))
  {
    var hits, updates := Share(s.validRatio, cfg.minValidRatio), Share(s.updateRate, cfg.minUpdateRate);
    ShareIsShare(s.validRatio, cfg.minValidRatio);
    ShareIsShare(s.updateRate, cfg.minUpdateRate);
    ProductBounds(hits, updates);
    ReducedMeans(Times(hits, updates), s.occupied < cfg.minOccupied, s.allocFailures > 0, s.routes < 2);
    ClampInside(Reduced(Times(hits, updates), s.occupied < cfg.minOccupied, s.allocFailures > 0, s.routes < 2));
    PartIsProduct(cfg, s);
    ScoreIsReduced(cfg, s);
    hide Reduced, ScoreOf, Share, Clamp, Times, PartOf, IsShare, IsScore;
    assert ScoreOf(cfg, s)
           == Reduced(Times(hits, updates), s.occupied < cfg.minOccupied, s.allocFailures > 0, s.routes < 2);
    ScoreExists(cfg, s, hits, updates, ScoreOf(cfg, s));
  }

  lemma {:induction false} ScoreExists(cfg: Config, s: Facts, hits: real, updates: real, score: real)
    requires IsShare(hits, s.validRatio, cfg.minValidRatio) && IsShare(updates, s.updateRate, cfg.minUpdateRate)
    requires score == Reduced(Times(hits, updates), s.occupied < cfg.minOccupied, s.allocFailures > 0, s.routes < 2)
    ensures IsScore(cfg, s, score)
  {
    hide IsShare, Reduced, Times;
  }

  /** What the shortcomings leave of a score. */
  lemma {:induction false} ReducedMeans(x: real, few: bool, failed: bool, blind: bool)
    requires 0.0 <= x <= 1.0
    ensures 0.0 <= Reduced(x, few, failed, blind) <= 1.0
  {}

  /** The score before the shortcomings are looked at. */
  ghost function PartOf(cfg: Config, s: Facts): real {
    var a := if cfg.minValidRatio > 0.0 then Clamp(s.validRatio / cfg.minValidRatio, 0.0, 1.0) else 1.0;
    if cfg.minUpdateRate > 0.0 && s.updateRate < cfg.minUpdateRate
    then a * Clamp(s.updateRate / cfg.minUpdateRate, 0.0, 1.0) else a
  }

  lemma {:induction false} PartIsProduct(cfg: Config, s: Facts)
    requires s.validRatio >= 0.0
    ensures PartOf(cfg, s)
            == Times(Share(s.validRatio, cfg.minValidRatio), Share(s.updateRate, cfg.minUpdateRate))
  {
    ShareIsShare(s.validRatio, cfg.minValidRatio);
    hide Clamp, IsShare;
  }

  lemma {:induction false} ScoreIsReduced(cfg: Config, s: Facts)
    requires s.samples > 0
    ensures ScoreOf(cfg, s)
            == Clamp(Reduced(PartOf(cfg, s), s.occupied < cfg.minOccupied, s.allocFailures > 0, s.routes < 2), 0.0, 1.0)
  {
    hide Clamp;
  }

  lemma {:induction false} WholeOf(a: real)
    ensures a * 1.0 == 1.0 * a == a
  {}

  lemma {:induction false} ClampInside(e: real)
    ensures 0.0 <= e <= 1.0 ==> Clamp(e, 0.0, 1.0) == e
  {}

  /** What a snapshot concludes: the ratios are the counts over the samples and the window, the routes those with a
      hit; the level is read off the score, and a scan is recommended exactly for a map that falls short somewhere. */
  lemma {:induction false} JudgementMeans(cfg: Config, w: Window, g: Grid, s: Snapshot)
    requires cfg.Valid() && Tells(cfg, w, g, s)
    ensures var f := s.facts;
            && f.samples == |w.tofs| && f.occupied == g.occupied && f.allocFailures == g.allocFailures
            && f.updateRate * cfg.window == s.updates as real
            && (f.samples > 0 ==> f.validRatio * f.samples as real == s.validHits as real
                                  && f.rejectRatio * f.samples as real == s.rejected as real)
            && f.routes == |set r: Route | HitsFor(s, r) > 0|
    ensures if s.facts.samples == 0 then s.score == 0.0 && s.level == NoData else IsScore(cfg, s.facts, s.score)
    ensures s.facts.samples > 0 ==>
              && (s.level == Good <==> s.score >= cfg.lowThreshold)
              && (s.level == Degraded <==> s.score < cfg.degradedThreshold && s.score < cfg.lowThreshold)
              && (s.level == Low <==> cfg.degradedThreshold <= s.score < cfg.lowThreshold)
    ensures !s.recommended <==>
            && s.level == Good && s.facts.validRatio >= cfg.minValidRatio && s.facts.updateRate >= cfg.minUpdateRate
            && s.facts.occupied >= cfg.minOccupied && s.facts.routes >= 2 && s.facts.rejectRatio <= 0.8
  {
    RoutesMean(s);
    hide NumTof, NumMap, ScoreOf, RoutesOf, IsScore, HitsFor;
    RatioMeans(s.validHits, |w.tofs|);
    RatioMeans(s.rejected, |w.tofs|);
    assert s.facts.updateRate * cfg.window == s.updates as real;
    hide Ratio, Rate;
    RateIsPositive(s.updates, cfg.window);
    if |w.tofs| > 0 {
      ScoreIsProduct(cfg, s.facts);
    } else {
      NoScore(cfg, s.facts);
    }
  }

  lemma {:induction false} NoScore(cfg: Config, s: Facts)
    ensures s.samples == 0 ==> ScoreOf(cfg, s) == 0.0
  {}

  lemma {:induction false} RatioMeans(a: nat, b: nat)
    ensures b > 0 ==> Ratio(a, b) * b as real == a as real
    ensures Ratio(a, b) >= 0.0
  {}

  ghost function HitsFor(s: Snapshot, r: Route): nat {
    match r
    case Front => s.frontHits
    case Left => s.leftHits
    case Right => s.rightHits
  }

  /** The route alone, if it has a hit. */
  ghost function Only(r: Route, hits: nat): set<Route> { if hits > 0 then {r} else {} }

  lemma {:induction false} OnlySize(r: Route, hits: nat)
    ensures |Only(r, hits)| == if hits > 0 then 1 else 0
  {}

  lemma {:induction false} DisjointSizes(a: set<Route>, b: set<Route>)
    requires a !! b
    ensures |a + b| == |a| + |b|
  {}

  lemma {:induction false} RoutesMean(s: Snapshot)
    ensures RoutesOf(s.frontHits, s.leftHits, s.rightHits) == |set r: Route | HitsFor(s, r) > 0|
  {
    var front, left, right := Only(Front, s.frontHits), Only(Left, s.leftHits), Only(Right, s.rightHits);
    OnlySize(Front, s.frontHits);
    OnlySize(Left, s.leftHits);
    OnlySize(Right, s.rightHits);
    DisjointSizes(front, left);
    DisjointSizes(front + left, right);
    assert (set r: Route | HitsFor(s, r) > 0) == front + left + right;
  }
}
