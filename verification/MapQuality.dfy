/** Sliding-window map quality (include/robot_slamd/mapping/map_quality.hpp). */
module MapQuality {
  import opened Angles

  datatype Route = Front | Left | Right

  /** `id` is the route a sample counts for: front, left, or right for everything else. */
  datatype TofEvent = TofEvent(t: real, id: Route, confidence: nat, validHit: bool, rejected: bool)

  datatype MapEvent = MapEvent(t: real, attempted: bool, updated: bool)

  datatype Config = Config(window: real, minConfidence: int, minValidRatio: real, minUpdateRate: real, minOccupied: int,
                           lowThreshold: real, degradedThreshold: real)
  {
    /** What validate_config demands of the map_quality section. */
    ghost predicate Valid() {
      && window > 0.0 && 0.0 <= minValidRatio <= 1.0 && 0.0 <= minUpdateRate && minOccupied >= 0
      && 0.0 <= degradedThreshold <= lowThreshold <= 1.0
    }
  }

  datatype Grid = Grid(occupied: nat, allocFailures: nat)

  /** What the judgement of a snapshot rests on. */
  datatype Facts = Facts(samples: nat, validRatio: real, rejectRatio: real, updateRate: real, occupied: nat,
                         allocFailures: nat, routes: nat)

  datatype Snapshot = Snapshot(validHits: nat, invalid: nat, lowConfidence: nat, rejected: nat,
                               frontHits: nat, leftHits: nat, rightHits: nat, attempts: nat, updates: nat,
                               facts: Facts, score: real, level: Level, recommended: bool)

  datatype Level = NoData | Good | Low | Degraded

  // ----- the window -----

  /** The front of the deque loses every event older than the cutoff, up to the first newer one. */
  function DropOld<T>(q: seq<T>, time: T -> real, cutoff: real): seq<T> {
    if q != [] && time(q[0]) < cutoff then DropOld(q[1..], time, cutoff) else q
  }

  /** All events not older than the cutoff. */
  ghost function Recent<T>(h: seq<T>, time: T -> real, cutoff: real): seq<T> {
    if h == [] then []
    else
      var rest, x := Recent(h[..|h| - 1], time, cutoff), h[|h| - 1];
      if time(x) < cutoff then rest else rest + [x]
  }

  ghost predicate InOrder<T(!new)>(h: seq<T>, time: T -> real) {
    forall i, j :: 0 <= i <= j < |h| ==> time(h[i]) <= time(h[j])
  }

  method Prune<T>(q: seq<T>, time: T -> real, cutoff: real) returns (r: seq<T>)
    ensures r == DropOld(q, time, cutoff)
  {
    r := q;
    while r != [] && time(r[0]) < cutoff
      invariant DropOld(r, time, cutoff) == DropOld(q, time, cutoff)
      decreases |r|
    {
      r := r[1..];
    }
  }

  lemma {:induction false} DropStops<T>(h: seq<T>, time: T -> real, cutoff: real, j: nat, k: nat)
    requires j <= k <= |h| && (forall i :: j <= i < k ==> time(h[i]) < cutoff) && (k < |h| ==> time(h[k]) >= cutoff)
    ensures DropOld(h[j..], time, cutoff) == h[k..]
    decreases k - j
  {
    if j < k {
      assert h[j..][1..] == h[j + 1..];
      DropStops(h, time, cutoff, j + 1, k);
    }
  }

  lemma {:induction false} RecentIsSuffix<T>(h: seq<T>, time: T -> real, cutoff: real, k: nat)
    requires k <= |h| && (forall i :: 0 <= i < |h| ==> (time(h[i]) < cutoff <==> i < k))
    ensures Recent(h, time, cutoff) == h[k..]
  {
    if h != [] {
      var last := |h| - 1;
      RecentIsSuffix(h[..last], time, cutoff, if k <= last then k else last);
      assert h == h[..last] + [h[last]];
    }
  }

  /** Where the recent part of an ordered history begins. */
  ghost function Start<T(!new)>(h: seq<T>, time: T -> real, cutoff: real): (k: nat)
    requires InOrder(h, time)
    ensures k <= |h| && forall i :: 0 <= i < |h| ==> (time(h[i]) < cutoff <==> i < k)
  {
    if h == [] then 0
    else
      var last := |h| - 1;
      if time(h[last]) < cutoff then |h| else Start(h[..last], time, cutoff)
  }

  /** Dropping from the front, after a window that was recent before, leaves exactly what is recent now. */
  lemma {:induction false} DropKeepsRecent<T(!new)>(h: seq<T>, new': seq<T>, time: T -> real, before: real,
                                                    cutoff: real)
    requires InOrder(h + new', time) && before <= cutoff
    ensures DropOld(Recent(h, time, before) + new', time, cutoff) == Recent(h + new', time, cutoff)
  {
    var all := h + new';
    assert forall i :: 0 <= i < |h| ==> h[i] == all[i];
    var j, k := Start(h, time, before), Start(all, time, cutoff);
    RecentIsSuffix(h, time, before, j);
    RecentIsSuffix(all, time, cutoff, k);
    assert h[j..] + new' == all[j..];
    assert j > 0 ==> h[j - 1] == all[j - 1] && time(all[j - 1]) < cutoff;
    DropStops(all, time, cutoff, j, k);
  }

  // ----- the two deques over a run -----

  datatype Call = Tof(now: real, tof: TofEvent) | Map(now: real, map_: MapEvent) | Snap(now: real)

  datatype Window = Window(tofs: seq<TofEvent>, maps: seq<MapEvent>)

  function TofTime(e: TofEvent): real { e.t }

  function MapTime(e: MapEvent): real { e.t }

  function NewTofs(c: Call): seq<TofEvent> { if c.Tof? then [c.tof.(t := c.now)] else [] }

  function NewMaps(c: Call): seq<MapEvent> { if c.Map? then [c.map_.(t := c.now)] else [] }

  function Step(cfg: Config, w: Window, c: Call): Window {
    var cutoff := c.now - cfg.window;
    Window(DropOld(w.tofs + NewTofs(c), TofTime, cutoff), DropOld(w.maps + NewMaps(c), MapTime, cutoff))
  }

  function Run(cfg: Config, calls: seq<Call>, n: nat): Window
    requires n <= |calls|
  {
    if n == 0 then Window([], []) else Step(cfg, Run(cfg, calls, n - 1), calls[n - 1])
  }

  ghost function TofHistory(calls: seq<Call>, n: nat): seq<TofEvent>
    requires n <= |calls|
  {
    if n == 0 then [] else TofHistory(calls, n - 1) + NewTofs(calls[n - 1])
  }

  ghost function MapHistory(calls: seq<Call>, n: nat): seq<MapEvent>
    requires n <= |calls|
  {
    if n == 0 then [] else MapHistory(calls, n - 1) + NewMaps(calls[n - 1])
  }

  ghost predicate TimesAscend(calls: seq<Call>) {
    forall i, j :: 0 <= i <= j < |calls| ==> calls[i].now <= calls[j].now
  }

  ghost predicate EndsBy<T(!new)>(h: seq<T>, time: T -> real, now: real) {
    InOrder(h, time) && forall i :: 0 <= i < |h| ==> time(h[i]) <= now
  }

  lemma {:induction false} SnocInOrder<T(!new)>(h: seq<T>, more: seq<T>, time: T -> real, before: real, now: real)
    requires EndsBy(h, time, before) && before <= now && |more| <= 1 && (more != [] ==> time(more[0]) == before)
    ensures EndsBy(h + more, time, now)
  {}

  lemma {:induction false} HistoryInOrder(calls: seq<Call>, n: nat, now: real)
    requires n <= |calls| && TimesAscend(calls) && (n > 0 ==> calls[n - 1].now <= now)
    ensures EndsBy(TofHistory(calls, n), TofTime, now) && EndsBy(MapHistory(calls, n), MapTime, now)
  {
    if n > 0 {
      var t := calls[n - 1].now;
      HistoryInOrder(calls, n - 1, t);
      hide EndsBy, TimesAscend;
      SnocInOrder(TofHistory(calls, n - 1), NewTofs(calls[n - 1]), TofTime, t, now);
      SnocInOrder(MapHistory(calls, n - 1), NewMaps(calls[n - 1]), MapTime, t, now);
    }
  }

  lemma {:induction false} TimesOf(calls: seq<Call>, n: nat) returns (before: real)
    requires 0 < n <= |calls| && TimesAscend(calls)
    ensures before <= calls[n - 1].now && (n > 1 ==> before == calls[n - 2].now)
    ensures InOrder(TofHistory(calls, n), TofTime) && InOrder(MapHistory(calls, n), MapTime)
  {
    before := if n == 1 then calls[n - 1].now else calls[n - 2].now;
    HistoryInOrder(calls, n, calls[n - 1].now);
  }

  lemma {:induction false} StepKeepsRecent(cfg: Config, calls: seq<Call>, n: nat, before: real, now: real)
    requires 0 < n <= |calls| && before <= now == calls[n - 1].now
    requires InOrder(TofHistory(calls, n), TofTime) && InOrder(MapHistory(calls, n), MapTime)
    requires Run(cfg, calls, n - 1).tofs == Recent(TofHistory(calls, n - 1), TofTime, before - cfg.window)
    requires Run(cfg, calls, n - 1).maps == Recent(MapHistory(calls, n - 1), MapTime, before - cfg.window)
    ensures Run(cfg, calls, n).tofs == Recent(TofHistory(calls, n), TofTime, now - cfg.window)
    ensures Run(cfg, calls, n).maps == Recent(MapHistory(calls, n), MapTime, now - cfg.window)
  {
    hide DropOld, Recent, InOrder, NewTofs, NewMaps;
    DropKeepsRecent(TofHistory(calls, n - 1), NewTofs(calls[n - 1]), TofTime, before - cfg.window, now - cfg.window);
    DropKeepsRecent(MapHistory(calls, n - 1), NewMaps(calls[n - 1]), MapTime, before - cfg.window, now - cfg.window);
  }

  /** After every call both deques are exactly the recorded history filtered to the last window. */
  lemma {:induction false} WindowIsRecent(cfg: Config, calls: seq<Call>, n: nat, now: real)
    requires n <= |calls| && TimesAscend(calls) && (n > 0 ==> now == calls[n - 1].now)
    ensures Run(cfg, calls, n).tofs == Recent(TofHistory(calls, n), TofTime, now - cfg.window)
    ensures Run(cfg, calls, n).maps == Recent(MapHistory(calls, n), MapTime, now - cfg.window)
  {
    hide DropOld, InOrder, TimesAscend, Step;
    if n > 0 {
      hide *;
      var before := TimesOf(calls, n);
      WindowIsRecent(cfg, calls, n - 1, before);
      StepKeepsRecent(cfg, calls, n, before, now);
    }
  }

  // ----- the snapshot -----

  datatype TofKind = Hits | HitsOn(route: Route) | NoConfidence | LowConfidence(min: int) | Rejects

  predicate IsTof(k: TofKind, e: TofEvent) {
    match k
    case Hits => e.validHit
    case HitsOn(route) => e.validHit && e.id == route
    case NoConfidence => e.confidence == 0
    case LowConfidence(min) => 0 < e.confidence < min
    case Rejects => e.rejected
  }

  function One(b: bool): nat { if b then 1 else 0 }

  /** How many of the events are of the kind. */
  function NumTof(q: seq<TofEvent>, k: TofKind): nat {
    if q == [] then 0 else NumTof(q[..|q| - 1], k) + One(IsTof(k, q[|q| - 1]))
  }

  function NumMap(q: seq<MapEvent>, updated: bool): nat {
    if q == [] then 0
    else NumMap(q[..|q| - 1], updated) + One(if updated then q[|q| - 1].updated else q[|q| - 1].attempted)
  }

  function Ratio(a: nat, b: nat): real { if b == 0 then 0.0 else (a as real) / (b as real) }

  function Rate(n: nat, window: real): real
    requires window > 0.0
  {
    (n as real) / window
  }

  function RoutesOf(front: nat, left: nat, right: nat): nat {
    (if front > 0 then 1 else 0) + (if left > 0 then 1 else 0) + (if right > 0 then 1 else 0)
  }

  function ScoreOf(cfg: Config, s: Facts): real {
    if s.samples == 0 then 0.0
    else
      var a := if cfg.minValidRatio > 0.0 then Clamp(s.validRatio / cfg.minValidRatio, 0.0, 1.0) else 1.0;
      var b := if cfg.minUpdateRate > 0.0 && s.updateRate < cfg.minUpdateRate
               then a * Clamp(s.updateRate / cfg.minUpdateRate, 0.0, 1.0) else a;
      var c := if s.occupied < cfg.minOccupied then b * 0.5 else b;
      var d := if s.allocFailures > 0 then c * 0.5 else c;
      var e := if s.routes < 2 then d * 0.6 else d;
      Clamp(e, 0.0, 1.0)
  }

  function LevelOf(cfg: Config, samples: nat, score: real): Level {
    if samples == 0 then NoData
    else if score >= cfg.lowThreshold then Good
    else if score >= cfg.degradedThreshold then Low
    else Degraded
  }

  predicate Recommends(cfg: Config, s: Facts, level: Level) {
    || level != Good || s.validRatio < cfg.minValidRatio || s.updateRate < cfg.minUpdateRate
    || s.occupied < cfg.minOccupied || s.routes < 2 || s.rejectRatio > 0.80
  }

  /** The snapshot counts exactly the events of the window, and is judged from those counts. */
  ghost predicate Tells(cfg: Config, w: Window, g: Grid, s: Snapshot)
    requires cfg.window > 0.0
  {
    && s.validHits == NumTof(w.tofs, Hits) && s.invalid == NumTof(w.tofs, NoConfidence)
    && s.lowConfidence == NumTof(w.tofs, LowConfidence(cfg.minConfidence)) && s.rejected == NumTof(w.tofs, Rejects)
    && s.frontHits == NumTof(w.tofs, HitsOn(Front)) && s.leftHits == NumTof(w.tofs, HitsOn(Left))
    && s.rightHits == NumTof(w.tofs, HitsOn(Right))
    && s.attempts == NumMap(w.maps, false) && s.updates == NumMap(w.maps, true)
    && s.facts == Facts(|w.tofs|, Ratio(s.validHits, |w.tofs|), Ratio(s.rejected, |w.tofs|),
                        Rate(s.updates, cfg.window),
                        g.occupied, g.allocFailures, RoutesOf(s.frontHits, s.leftHits, s.rightHits))
    && s.score == ScoreOf(cfg, s.facts) && s.level == LevelOf(cfg, |w.tofs|, s.score)
    && s.recommended == Recommends(cfg, s.facts, s.level)
  }

  /** Every valid hit of the window belongs to exactly one route, and a hit is a sample. */
  lemma {:induction false} HitsSplit(q: seq<TofEvent>)
    ensures NumTof(q, Hits) == NumTof(q, HitsOn(Front)) + NumTof(q, HitsOn(Left)) + NumTof(q, HitsOn(Right)) <= |q|
  {
    if q != [] {
      HitsSplit(q[..|q| - 1]);
    }
  }

  lemma {:induction false} KindBound(q: seq<TofEvent>, k: TofKind)
    ensures NumTof(q, k) <= |q|
  {
    if q != [] {
      KindBound(q[..|q| - 1], k);
    }
  }

  lemma {:induction false} RatioBounds(a: nat, b: nat)
    requires a <= b
    ensures 0.0 <= Ratio(a, b) <= 1.0
  {}

  lemma {:induction false} Shrinks(x: real, y: real)
    requires 0.0 <= x <= 1.0 && 0.0 <= y <= 1.0
    ensures 0.0 <= x * y <= x && x * y <= y
  {}

  /** The score is a number from 0 to 1, and each shortcoming caps it: too few occupied cells or a
      failed allocation at a half, fewer than two routes at 0.6. */
  lemma {:induction false} ScoreBounds(cfg: Config, s: Facts)
    requires cfg.Valid() && s.validRatio >= 0.0 && s.updateRate >= 0.0
    ensures var r := ScoreOf(cfg, s);
            && 0.0 <= r <= 1.0 && (s.occupied < cfg.minOccupied || s.allocFailures > 0 ==> r <= 0.5)
            && (s.routes < 2 ==> r <= 0.6)
            && (s.occupied < cfg.minOccupied && s.allocFailures > 0 && s.routes < 2 ==> r <= 0.15)
  {
    if s.samples > 0 {
      var a := if cfg.minValidRatio > 0.0 then Clamp(s.validRatio / cfg.minValidRatio, 0.0, 1.0) else 1.0;
      if cfg.minUpdateRate > 0.0 && s.updateRate < cfg.minUpdateRate {
        Shrinks(a, Clamp(s.updateRate / cfg.minUpdateRate, 0.0, 1.0));
      }
    }
  }

  /** The tallies of the loop over the readings of the window. */
  datatype Tally = Tally(validHits: nat, invalid: nat, low: nat, rejected: nat, front: nat, left: nat, right: nat)

  ghost predicate IsTally(q: seq<TofEvent>, min: int, t: Tally) {
    && t.validHits == NumTof(q, Hits) && t.invalid == NumTof(q, NoConfidence) && t.low == NumTof(q, LowConfidence(min))
    && t.rejected == NumTof(q, Rejects) && t.front == NumTof(q, HitsOn(Front)) && t.left == NumTof(q, HitsOn(Left))
    && t.right == NumTof(q, HitsOn(Right))
  }

  lemma {:induction false} TallySnoc(q: seq<TofEvent>, e: TofEvent, k: TofKind)
    ensures NumTof(q + [e], k) == NumTof(q, k) + One(IsTof(k, e))
  {
    assert (q + [e])[..|q|] == q;
  }

  method TallyTofs(q: seq<TofEvent>, min: int) returns (t: Tally)
    ensures IsTally(q, min, t)
  {
    hide NumTof;
    assert IsTally([], min, Tally(0, 0, 0, 0, 0, 0, 0)) by {
      NoTofs(min);
    }
    t := Tally(0, 0, 0, 0, 0, 0, 0);
    for i := 0 to |q|
      invariant IsTally(q[..i], min, t)
    {
      assert q[..i + 1] == q[..i] + [q[i]];
      t := TallyOne(q[..i], q[i], min, t);
    }
    assert q[..|q|] == q;
  }

  lemma {:induction false} NoTofs(min: int)
    ensures IsTally([], min, Tally(0, 0, 0, 0, 0, 0, 0))
  {}

  method TallyOne(ghost q: seq<TofEvent>, e: TofEvent, min: int, t: Tally) returns (r: Tally)
    requires IsTally(q, min, t)
    ensures IsTally(q + [e], min, r)
  {
    hide NumTof;
    r := t;
    if e.validHit { r := r.(validHits := r.validHits + 1); }
    if e.confidence == 0 { r := r.(invalid := r.invalid + 1); }
    else if e.confidence < min { r := r.(low := r.low + 1); }
    if e.rejected { r := r.(rejected := r.rejected + 1); }
    if e.validHit {
      match e.id {
        case Front => r := r.(front := r.front + 1);
        case Left => r := r.(left := r.left + 1);
        case Right => r := r.(right := r.right + 1);
      }
    }
    TallySnoc(q, e, Hits);
    TallySnoc(q, e, NoConfidence);
    TallySnoc(q, e, LowConfidence(min));
    TallySnoc(q, e, Rejects);
    TallySnoc(q, e, HitsOn(Front));
    TallySnoc(q, e, HitsOn(Left));
    TallySnoc(q, e, HitsOn(Right));
  }

  method TallyMaps(q: seq<MapEvent>) returns (attempts: nat, updates: nat)
    ensures attempts == NumMap(q, false) && updates == NumMap(q, true)
  {
    attempts, updates := 0, 0;
    for i := 0 to |q|
      invariant attempts == NumMap(q[..i], false) && updates == NumMap(q[..i], true)
    {
      assert q[..i + 1][..i] == q[..i];
      if q[i].attempted { attempts := attempts + 1; }
      if q[i].updated { updates := updates + 1; }
    }
    assert q[..|q|] == q;
  }

  // ----- the object -----

  class MapQuality {
    const cfg: Config
    var tofEvents: seq<TofEvent>
    var mapEvents: seq<MapEvent>
    var grid: Grid

    function View(): Window
      reads this
    {
      Window(tofEvents, mapEvents)
    }

    constructor (cfg: Config)
      ensures this.cfg == cfg && View() == Window([], []) && grid == Grid(0, 0)
    {
      this.cfg := cfg;
      tofEvents, mapEvents, grid := [], [], Grid(0, 0);
    }

    method PruneBoth(now: real)
      modifies this`tofEvents, this`mapEvents
      ensures View() == Step(cfg, old(View()), Snap(now))
    {
      hide DropOld;
      assert tofEvents + [] == tofEvents && mapEvents + [] == mapEvents;
      var cutoff := now - cfg.window;
      tofEvents := Prune(tofEvents, TofTime, cutoff);
      mapEvents := Prune(mapEvents, MapTime, cutoff);
    }

    method RecordTofResult(now: real, e: TofEvent)
      modifies this`tofEvents, this`mapEvents
      ensures View() == Step(cfg, old(View()), Tof(now, e))
    {
      hide DropOld;
      tofEvents := tofEvents + [e.(t := now)];
      assert tofEvents + [] == tofEvents && mapEvents + [] == mapEvents;
      PruneBoth(now);
    }

    method RecordMapUpdate(now: real, e: MapEvent)
      modifies this`tofEvents, this`mapEvents
      ensures View() == Step(cfg, old(View()), Map(now, e))
    {
      hide DropOld;
      mapEvents := mapEvents + [e.(t := now)];
      assert tofEvents + [] == tofEvents && mapEvents + [] == mapEvents;
      PruneBoth(now);
    }

    method UpdateGridStats(g: Grid)
      modifies this`grid
      ensures grid == g
    {
      grid := g;
    }

    method TakeSnapshot(now: real) returns (s: Snapshot)
      requires cfg.Valid()
      modifies this`tofEvents, this`mapEvents
      ensures View() == Step(cfg, old(View()), Snap(now)) && Tells(cfg, View(), grid, s)
    {
      PruneBoth(now);
      hide Step, NumTof, NumMap, ScoreOf, LevelOf, Recommends, Ratio, Rate, RoutesOf;
      var t := TallyTofs(tofEvents, cfg.minConfidence);
      var attempts, updates := TallyMaps(mapEvents);
      var n := |tofEvents|;
      var facts := Facts(n, Ratio(t.validHits, n), Ratio(t.rejected, n), Rate(updates, cfg.window), grid.occupied,
                         grid.allocFailures, RoutesOf(t.front, t.left, t.right));
      var score := ScoreOf(cfg, facts);
      var level := LevelOf(cfg, n, score);
      s := Snapshot(t.validHits, t.invalid, t.low, t.rejected, t.front, t.left, t.right, attempts, updates, facts,
                    score,
                    level, Recommends(cfg, facts, level));
    }
  }

  /** A snapshot taken after any calls counts exactly the recorded events of the last window. */
  lemma {:induction false} SnapshotTellsHistory(cfg: Config, calls: seq<Call>, g: Grid, s: Snapshot)
    requires cfg.Valid() && calls != [] && TimesAscend(calls) && Tells(cfg, Run(cfg, calls, |calls|), g, s)
    ensures var cutoff := calls[|calls| - 1].now - cfg.window;
            var w := Window(Recent(TofHistory(calls, |calls|), TofTime, cutoff),
                            Recent(MapHistory(calls, |calls|), MapTime, cutoff));
            Tells(cfg, w, g, s)
  {
    hide *;
    WindowIsRecent(cfg, calls, |calls|, calls[|calls| - 1].now);
  }

  /** Its ratios and its score lie between 0 and 1; every valid hit belongs to one route; and without a
      sample the level is NoData and a scan is recommended. */
  lemma {:induction false} SnapshotIsSound(cfg: Config, w: Window, g: Grid, s: Snapshot)
    requires cfg.Valid() && Tells(cfg, w, g, s)
    ensures 0.0 <= s.facts.validRatio <= 1.0 && 0.0 <= s.facts.rejectRatio <= 1.0 && 0.0 <= s.score <= 1.0
    ensures s.validHits == s.frontHits + s.leftHits + s.rightHits <= s.facts.samples
    ensures s.facts.samples == 0 ==> s.level == NoData && s.recommended
  {
    hide ScoreOf, NumTof, NumMap, Ratio, Rate, RoutesOf;
    HitsSplit(w.tofs);
    KindBound(w.tofs, Rejects);
    RatioBounds(s.validHits, |w.tofs|);
    RatioBounds(s.rejected, |w.tofs|);
    RateIsPositive(s.updates, cfg.window);
    ScoreBounds(cfg, s.facts);
  }

  lemma {:induction false} RateIsPositive(n: nat, window: real)
    requires window > 0.0
    ensures Rate(n, window) >= 0.0
  {}
}
