/** The occupancy map as its users see it: touched cells and their log-odds, on an unbounded grid.
    ChunkedGrid refines this; the ray update and the nearest-cell search are specified over it. */
module FlatMap {
  import opened LineCells
  import A = Angles

  datatype GridConfig = GridConfig(
    chunkCells: nat,
    resolution: real,
    logOddsMin: real,
    logOddsMax: real,
    occupiedThresh: real,
    freeThresh: real,
    maxCellsPerTofUpdate: int,
    probability: real -> real) // the map from log-odds to probability
  {
    /** What validate_config demands of the mapping section. */
    ghost predicate Valid() {
      chunkCells > 0 && resolution > 0.0 && logOddsMin < logOddsMax && freeThresh < occupiedThresh
    }

    predicate IsOccupied(l: real) { probability(l) >= occupiedThresh }

    predicate IsFree(l: real) { !IsOccupied(l) && probability(l) <= freeThresh }

    function Add(l: real, delta: real): (v: real)
      requires logOddsMin < logOddsMax
      ensures logOddsMin <= v <= logOddsMax
    {
      var s := l + delta;
      var capped := if s < logOddsMax then s else logOddsMax;
      if capped < logOddsMin then logOddsMin else capped
    }
  }

  /** v is s, or the limit that s lies beyond. */
  ghost predicate Saturates(cfg: GridConfig, v: real, s: real) {
    if s > cfg.logOddsMax then v == cfg.logOddsMax else if s < cfg.logOddsMin then v == cfg.logOddsMin else v == s
  }

  /** Adding adds, up to the limits: the result is the point between them that is nearest to the sum. */
  lemma {:induction false} AddIsNearest(cfg: GridConfig, l: real, delta: real, x: real)
    requires cfg.Valid() && cfg.logOddsMin <= x <= cfg.logOddsMax
    ensures Saturates(cfg, cfg.Add(l, delta), l + delta)
    ensures A.Abs(cfg.Add(l, delta) - (l + delta)) <= A.Abs(x - (l + delta))
  {}

  type Flat = map<Cell, real>

  /** The log-odds read for a cell: zero where nothing was ever written. */
  function Lookup(m: Flat, c: Cell): real { if c in m then m[c] else 0.0 }

  function Write(cfg: GridConfig, m: Flat, c: Cell, delta: real): Flat
    requires cfg.Valid()
  {
    m[c := cfg.Add(Lookup(m, c), delta)]
  }

  ghost predicate InRange(cfg: GridConfig, m: Flat) {
    forall c :: c in m ==> cfg.logOddsMin <= m[c] <= cfg.logOddsMax
  }

  lemma WriteKeeps(cfg: GridConfig, m: Flat, c: Cell, delta: real)
    requires cfg.Valid() && InRange(cfg, m)
    ensures Write(cfg, m, c, delta).Keys == m.Keys + {c}
    ensures InRange(cfg, Write(cfg, m, c, delta))
  {}

  /** Writing changes one cell, by the delta as far as the limits allow. */
  lemma {:induction false} WriteMeans(cfg: GridConfig, m: Flat, c: Cell, delta: real)
    requires cfg.Valid()
    ensures var n := Write(cfg, m, c, delta);
            && c in n && Saturates(cfg, n[c], Lookup(m, c) + delta)
            && forall d :: d != c ==> (d in n <==> d in m) && Lookup(n, d) == Lookup(m, d)
  {}

  /** Every cell of s receives delta, exactly once; no other cell changes. */
  ghost function WriteAll(cfg: GridConfig, m: Flat, s: set<Cell>, delta: real): Flat
    requires cfg.Valid()
  {
    map c | c in m.Keys + s :: if c in s then cfg.Add(Lookup(m, c), delta) else m[c]
  }

  lemma WriteAllStep(cfg: GridConfig, m: Flat, s: set<Cell>, c: Cell, delta: real)
    requires cfg.Valid() && c !in s
    ensures Write(cfg, WriteAll(cfg, m, s, delta), c, delta) == WriteAll(cfg, m, s + {c}, delta)
  {}

  ghost function WriteInOrder(cfg: GridConfig, m: Flat, order: seq<Cell>, delta: real): Flat
    requires cfg.Valid()
  {
    if order == [] then m
    else Write(cfg, WriteInOrder(cfg, m, order[..|order| - 1], delta), order[|order| - 1], delta)
  }

  ghost function Elements(order: seq<Cell>): set<Cell> { set c | c in order }

  lemma ElementsSnoc(order: seq<Cell>)
    requires order != []
    ensures Elements(order) == Elements(order[..|order| - 1]) + {order[|order| - 1]}
  {
    assert order == order[..|order| - 1] + [order[|order| - 1]];
  }

  /** Whatever order an unordered set is walked in, the map it leaves is the same. */
  lemma {:induction false} OrderIsIrrelevant(cfg: GridConfig, m: Flat, order: seq<Cell>, delta: real)
    requires cfg.Valid()
    requires forall i, j :: 0 <= i < j < |order| ==> order[i] != order[j]
    ensures WriteInOrder(cfg, m, order, delta) == WriteAll(cfg, m, Elements(order), delta)
  {
    if order == [] {
      assert WriteAll(cfg, m, {}, delta) == m;
    } else {
      var front, last := order[..|order| - 1], order[|order| - 1];
      OrderIsIrrelevant(cfg, m, front, delta);
      assert last !in Elements(front);
      WriteAllStep(cfg, m, Elements(front), last, delta);
      ElementsSnoc(order);
    }
  }

  /** One ray of a range reading: where its free stretch ends and the cell of its hit. */
  datatype Ray = Ray(freeEnd: Cell, hit: Cell)

  datatype Bundle = Bundle(free: set<Cell>, occ: set<Cell>, budget: int)

  /** The set phase of update_tof_ray: rays are walked in turn while budget is left, so a ray that
      comes after the budget ran out contributes neither free cells nor its hit. */
  ghost function Gather(start: Cell, rays: seq<Ray>, hit: bool, b: Bundle): Bundle
    decreases |rays|
  {
    if rays == [] || b.budget <= 0 then b
    else
      var (free, left) := Insert(start, rays[0].freeEnd, 0, b.free, b.budget);
      Gather(start, rays[1..], hit, Bundle(free, if hit then b.occ + {rays[0].hit} else b.occ, left))
  }

  ghost function Gathered(cfg: GridConfig, start: Cell, rays: seq<Ray>, hit: bool): Bundle {
    Gather(start, rays, hit, Bundle({}, {}, Max(1, cfg.maxCellsPerTofUpdate)))
  }

  /** The whole effect of one range reading on the map. */
  ghost function RayUpdate(cfg: GridConfig, m: Flat, start: Cell, rays: seq<Ray>, hit: bool,
                           freeDelta: real, occDelta: real): Flat
    requires cfg.Valid()
  {
    var g := Gathered(cfg, start, rays, hit);
    WriteAll(cfg, WriteAll(cfg, m, g.free - g.occ, freeDelta), g.occ, occDelta)
  }

  lemma {:induction false} GatherSpends(start: Cell, rays: seq<Ray>, hit: bool, b: Bundle)
    requires b.budget >= 0
    ensures var g := Gather(start, rays, hit, b);
            && b.free <= g.free && b.occ <= g.occ && g.budget >= 0
            && |g.free| - |b.free| == b.budget - g.budget
            && |g.occ| <= |b.occ| + |rays|
    decreases |rays|
  {
    if rays != [] && b.budget > 0 {
      var (free, left) := Insert(start, rays[0].freeEnd, 0, b.free, b.budget);
      InsertSpends(start, rays[0].freeEnd, 0, b.free, b.budget);
      assert free == b.free + (free - b.free);
      GatherSpends(start, rays[1..], hit, Bundle(free, if hit then b.occ + {rays[0].hit} else b.occ, left));
    }
  }

  lemma {:induction false} GatherStays(start: Cell, rays: seq<Ray>, hit: bool, b: Bundle, c: Cell)
    requires b.budget >= 0
    ensures var g := Gather(start, rays, hit, b);
            && (c in g.occ - b.occ ==> hit && exists r :: r in rays && c == r.hit)
            && (c in g.free - b.free ==> exists r, k: nat :: r in rays && k <= Length(start, r.freeEnd)
                                                              && c == LineCell(start, r.freeEnd, k))
    decreases |rays|
  {
    if rays != [] && b.budget > 0 {
      var (free, left) := Insert(start, rays[0].freeEnd, 0, b.free, b.budget);
      InsertSpends(start, rays[0].freeEnd, 0, b.free, b.budget);
      InsertIsSegment(start, rays[0].freeEnd, 0, b.free, b.budget);
      GatherStays(start, rays[1..], hit, Bundle(free, if hit then b.occ + {rays[0].hit} else b.occ, left), c);
      assert forall r :: r in rays[1..] ==> r in rays;
      assert rays[0] in rays;
    }
  }

  lemma {:induction false} TwoWrites(cfg: GridConfig, m: Flat, free: set<Cell>, occ: set<Cell>, freeDelta: real,
                                     occDelta: real, c: Cell)
    requires cfg.Valid() && free !! occ
    ensures var r := WriteAll(cfg, WriteAll(cfg, m, free, freeDelta), occ, occDelta);
            && (c in r <==> c in m || c in free || c in occ)
            && (if c in occ then Saturates(cfg, Lookup(r, c), Lookup(m, c) + occDelta)
                else if c in free then Saturates(cfg, Lookup(r, c), Lookup(m, c) + freeDelta)
                else Lookup(r, c) == Lookup(m, c))
  {}

  /** One reading gives each cell at most one delta, occupied winning over free. Free writes number at
      most max(1, max_cells), and every written cell is a hit cell or lies on one of the rays. */
  lemma {:induction false} RayUpdateMeaning(cfg: GridConfig, m: Flat, start: Cell, rays: seq<Ray>, hit: bool,
                                          freeDelta: real, occDelta: real, c: Cell)
    requires cfg.Valid()
    ensures var g, r := Gathered(cfg, start, rays, hit), RayUpdate(cfg, m, start, rays, hit, freeDelta, occDelta);
            && |g.free - g.occ| <= Max(1, cfg.maxCellsPerTofUpdate)
            && (c in r <==> c in m || c in g.free || c in g.occ)
            && (if c in g.occ then Saturates(cfg, Lookup(r, c), Lookup(m, c) + occDelta)
                else if c in g.free then Saturates(cfg, Lookup(r, c), Lookup(m, c) + freeDelta)
                else Lookup(r, c) == Lookup(m, c))
            && (c in g.occ ==> hit && exists ray :: ray in rays && c == ray.hit)
            && (c in g.free ==> exists ray, k: nat :: ray in rays && k <= Length(start, ray.freeEnd)
                                                       && c == LineCell(start, ray.freeEnd, k))
  {
    hide Gather, LineCell, Length, WriteAll, Saturates, Lookup;
    var b := Bundle({}, {}, Max(1, cfg.maxCellsPerTofUpdate));
    var g := Gathered(cfg, start, rays, hit);
    TwoWrites(cfg, m, g.free - g.occ, g.occ, freeDelta, occDelta, c);
    GatherSpends(start, rays, hit, b);
    GatherStays(start, rays, hit, b, c);
    SubsetSize(g.free - g.occ, g.free);
  }

  /** With budget for every ray, nothing is dropped: the free set is the union of all the lines and the
      occupied set holds every hit. */
  lemma {:induction false} EnoughForAllRays(start: Cell, rays: seq<Ray>, hit: bool, b: Bundle, i: nat)
    requires i < |rays| && b.budget >= 0
    requires b.budget > TotalLength(start, rays)
    ensures var g := Gather(start, rays, hit, b);
            && Segment(start, rays[i].freeEnd, 0, Length(start, rays[i].freeEnd) + 1) <= g.free
            && (hit ==> rays[i].hit in g.occ)
    decreases |rays|
  {
    hide Insert, Segment, Length;
    var (free, left) := Insert(start, rays[0].freeEnd, 0, b.free, b.budget);
    var b' := Bundle(free, if hit then b.occ + {rays[0].hit} else b.occ, left);
    TotalLengthNat(start, rays[1..]);
    OneRayFits(start, rays[0].freeEnd, b.free, b.budget);
    GatherSpends(start, rays[1..], hit, b');
    if i > 0 {
      assert rays[1..][i - 1] == rays[i];
      EnoughForAllRays(start, rays[1..], hit, b', i - 1);
    }
  }

  lemma {:induction false} OneRayFits(start: Cell, end: Cell, out: set<Cell>, budget: nat)
    requires budget > Length(start, end)
    ensures var (free, left) := Insert(start, end, 0, out, budget);
            && Segment(start, end, 0, Length(start, end) + 1) <= free
            && left >= budget - (Length(start, end) + 1) && left >= 0
  {
    hide Insert, Segment;
    var n := Length(start, end) + 1;
    var free := Insert(start, end, 0, out, budget).0;
    EnoughBudget(start, end, out, budget);
    InsertSpends(start, end, 0, out, budget);
    SegmentSize(start, end, 0, n);
    SubsetSize(free - out, Segment(start, end, 0, n));
  }

  /** Cells on all the rays together, counted with repetition. */
  ghost function TotalLength(start: Cell, rays: seq<Ray>): int {
    if rays == [] then 0 else Length(start, rays[0].freeEnd) + 1 + TotalLength(start, rays[1..])
  }

  lemma TotalLengthNat(start: Cell, rays: seq<Ray>)
    ensures TotalLength(start, rays) >= 0
  {}

  /** The bounds the grid keeps: none before the first write. */
  datatype Bounds = NoBounds | Box(minX: int, maxX: int, minY: int, maxY: int)
  {
    function Include(c: Cell): Bounds {
      if NoBounds? then Box(c.x, c.x, c.y, c.y)
      else Box(Min(minX, c.x), Max(maxX, c.x), Min(minY, c.y), Max(maxY, c.y))
    }
  }

  /** b is the bounding box of s: it holds every cell of s and each side touches one. */
  ghost predicate IsBoundingBox(b: Bounds, s: set<Cell>) {
    if s == {} then b == NoBounds
    else
      && b.Box?
      && (forall c :: c in s ==> b.minX <= c.x <= b.maxX && b.minY <= c.y <= b.maxY)
      && (exists c :: c in s && c.x == b.minX)
      && (exists c :: c in s && c.x == b.maxX)
      && (exists c :: c in s && c.y == b.minY)
      && (exists c :: c in s && c.y == b.maxY)
  }

  lemma {:induction false} BoxGrows(b: Bounds, s: set<Cell>, c: Cell)
    requires IsBoundingBox(b, s)
    ensures IsBoundingBox(b.Include(c), s + {c})
  {
    assert c in s + {c};
    if s != {} {
      var w0 :| w0 in s && w0.x == b.minX;
      var w1 :| w1 in s && w1.x == b.maxX;
      var w2 :| w2 in s && w2.y == b.minY;
      var w3 :| w3 in s && w3.y == b.maxY;
      assert {w0, w1, w2, w3} <= s + {c};
    }
  }

  /** A set has only one bounding box, so the grid's bounds do not depend on the order of writes. */
  lemma {:induction false} BoundingBoxIsUnique(s: set<Cell>, a: Bounds, b: Bounds)
    requires IsBoundingBox(a, s) && IsBoundingBox(b, s)
    ensures a == b
  {}

  ghost function OccupiedCells(cfg: GridConfig, m: Flat, s: set<Cell>): set<Cell>
    requires s <= m.Keys
  {
    set c | c in s && cfg.probability(m[c]) >= cfg.occupiedThresh
  }

  ghost function FreeCells(cfg: GridConfig, m: Flat, s: set<Cell>): set<Cell>
    requires s <= m.Keys
  {
    set c | c in s && cfg.probability(m[c]) < cfg.occupiedThresh && cfg.probability(m[c]) <= cfg.freeThresh
  }

  /** The counters of stats() over a set of touched cells. */
  datatype Tally = Tally(touched: nat, occupied: nat, free: nat, unknown: nat)
  {
    function Total(): nat { occupied + free + unknown }
  }

  ghost predicate Counts(cfg: GridConfig, m: Flat, s: set<Cell>, t: Tally) {
    && s <= m.Keys
    && t.touched == |s| && t.occupied == |OccupiedCells(cfg, m, s)| && t.free == |FreeCells(cfg, m, s)|
  }

  function CountCell(cfg: GridConfig, t: Tally, l: real): Tally {
    Tally(t.touched + 1,
          t.occupied + (if cfg.IsOccupied(l) then 1 else 0),
          t.free + (if cfg.IsFree(l) then 1 else 0),
          t.unknown + (if cfg.IsOccupied(l) || cfg.IsFree(l) then 0 else 1))
  }

  lemma {:induction false} CountsGrow(cfg: GridConfig, m: Flat, s: set<Cell>, t: Tally, c: Cell)
    requires Counts(cfg, m, s, t) && c in m && c !in s
    ensures Counts(cfg, m, s + {c}, CountCell(cfg, t, m[c]))
  {
    OccupiedGrow(cfg, m, s, c);
    FreeGrow(cfg, m, s, c);
  }

  lemma {:induction false} OccupiedGrow(cfg: GridConfig, m: Flat, s: set<Cell>, c: Cell)
    requires s <= m.Keys && c in m && c !in s
    ensures |OccupiedCells(cfg, m, s + {c})| == |OccupiedCells(cfg, m, s)| + (if cfg.IsOccupied(m[c]) then 1 else 0)
  {
    var occ := OccupiedCells(cfg, m, s);
    assert OccupiedCells(cfg, m, s + {c}) == if cfg.IsOccupied(m[c]) then occ + {c} else occ;
  }

  lemma {:induction false} FreeGrow(cfg: GridConfig, m: Flat, s: set<Cell>, c: Cell)
    requires s <= m.Keys && c in m && c !in s
    ensures |FreeCells(cfg, m, s + {c})| == |FreeCells(cfg, m, s)| + (if cfg.IsFree(m[c]) then 1 else 0)
  {
    var free := FreeCells(cfg, m, s);
    assert FreeCells(cfg, m, s + {c}) == if cfg.IsFree(m[c]) then free + {c} else free;
  }
}
