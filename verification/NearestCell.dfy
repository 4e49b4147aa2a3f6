/** The geometry of the nearest-occupied search (include/robot_slamd/core/grid.hpp). Distances are
    kept squared, so no root is needed. */
module NearestCell {
  import opened LineCells
  import opened FlatMap
  import A = Angles

  function CellOf(x: real, y: real, res: real): Cell
    requires res > 0.0
  {
    Cell((x / res).Floor, (y / res).Floor)
  }

  /** Where the centre of cell g lies along one axis. */
  function Centre(g: int, res: real): real { (g as real + 0.5) * res }

  function Square(d: real): real { d * d }

  function DistSq(c: Cell, x: real, y: real, res: real): real {
    Square(Centre(c.x, res) - x) + Square(Centre(c.y, res) - y)
  }

  ghost predicate Within(c: Cell, x: real, y: real, res: real, radius: real) {
    radius >= 0.0 && DistSq(c, x, y, res) <= Square(radius)
  }

  /** Half the side of the searched window, in cells. */
  function WindowCells(radius: real, res: real): nat {
    var step := if 0.000000001 < res then res else 0.000000001;
    Max(0, A.Ceil(radius / step))
  }

  ghost predicate InWindow(c: Cell, centre: Cell, r: int) {
    centre.x - r <= c.x <= centre.x + r && centre.y - r <= c.y <= centre.y + r
  }

  /** The window is wide enough for this radius: the test a caller can make on the configuration. */
  predicate WindowReaches(radius: real, res: real)
    requires res > 0.0
  {
    (radius / res + 0.5).Floor <= WindowCells(radius, res)
  }

  /** Occupied cells of the whole map within the radius. */
  ghost function Hits(cfg: GridConfig, m: Flat, x: real, y: real, radius: real): set<Cell> {
    set c | c in m && cfg.IsOccupied(m[c]) && Within(c, x, y, cfg.resolution, radius)
  }

  /** The search result is right for a set of hits: found iff there is one, at the least distance. */
  ghost predicate IsNearest(hits: set<Cell>, x: real, y: real, res: real, found: bool, distSq: real) {
    && (found <==> hits != {})
    && (found ==> exists c :: c in hits && distSq == DistSq(c, x, y, res))
    && (forall c :: c in hits ==> found && distSq <= DistSq(c, x, y, res))
  }

  lemma {:induction false} SquareOrder(d: real, radius: real)
    requires radius >= 0.0
    ensures Square(d) <= Square(radius) <==> -radius <= d <= radius
  {
    if d > radius {
      assert Square(d) > Square(radius) by { ProductGrows(d, radius); }
    } else if d < -radius {
      assert Square(-d) > Square(radius) by { ProductGrows(-d, radius); }
      assert Square(-d) == Square(d);
    } else if d >= 0.0 {
      ProductGrows(radius, d);
    } else {
      ProductGrows(radius, -d);
      assert Square(-d) == Square(d);
    }
  }

  lemma {:induction false} ProductGrows(a: real, b: real)
    requires a >= b >= 0.0
    ensures Square(a) >= Square(b)
    ensures a > b ==> Square(a) > Square(b)
  {
    var p, q := a - b, a + b;
    assert p * q == a * a - b * b;
    if p > 0.0 {
      assert p * q > 0.0;
    }
  }

  lemma {:induction false} SquareNonNegative(d: real)
    ensures Square(d) >= 0.0
  {}

  /** In units of cells: a centre within the radius is within radius / res cells. */
  lemma {:induction false} InCells(g: int, x: real, res: real, radius: real)
    requires res > 0.0
    ensures -radius <= Centre(g, res) - x <= radius <==> -(radius / res) <= g as real + 0.5 - x / res <= radius / res
  {
    var u, q := x / res, radius / res;
    assert u * res == x && q * res == radius;
    var d := g as real + 0.5 - u;
    assert d * res == Centre(g, res) - x;
    if d > q {
      assert (d - q) * res > 0.0;
    } else if d < -q {
      assert (-q - d) * res > 0.0;
    } else {
      assert (q - d) * res >= 0.0 && (d + q) * res >= 0.0;
    }
  }

  /** A window that reaches misses no cell, wherever the query lies. */
  lemma {:induction false} WindowMissesNothing(c: Cell, x: real, y: real, res: real, radius: real)
    requires res > 0.0 && WindowReaches(radius, res) && Within(c, x, y, res, radius)
    ensures InWindow(c, CellOf(x, y, res), WindowCells(radius, res))
  {
    var dx, dy := Centre(c.x, res) - x, Centre(c.y, res) - y;
    SquareNonNegative(dx);
    SquareNonNegative(dy);
    SquareOrder(dx, radius);
    SquareOrder(dy, radius);
    InCells(c.x, x, res, radius);
    InCells(c.y, y, res, radius);
  }

  /** And a window that does not reach misses one: a cell straight to the left of a query at the left
      edge of its own cell. */
  lemma {:induction false} ShortWindowMisses(res: real, radius: real)
    requires res > 0.0 && radius >= 0.0 && !WindowReaches(radius, res)
    ensures exists c, x, y :: Within(c, x, y, res, radius) && !InWindow(c, CellOf(x, y, res), WindowCells(radius, res))
  {
    var k := (radius / res + 0.5).Floor;
    var c, x, y := Cell(-k, 0), 0.0, 0.5 * res;
    assert x / res == 0.0 && y / res == 0.5;
    assert CellOf(x, y, res) == Cell(0, 0);
    assert Centre(0, res) - y == 0.0;
    InCells(-k, x, res, radius);
    SquareOrder(Centre(-k, res) - x, radius);
    assert Within(c, x, y, res, radius);
    assert !InWindow(c, CellOf(x, y, res), WindowCells(radius, res));
  }

  /** The search sees the whole map for a given radius and resolution exactly when the window reaches. */
  lemma {:induction false} WindowIsCompleteIff(res: real, radius: real)
    requires res > 0.0 && radius >= 0.0
    ensures WindowReaches(radius, res) <==>
            forall c, x, y :: Within(c, x, y, res, radius) ==> InWindow(c, CellOf(x, y, res), WindowCells(radius, res))
  {
    if WindowReaches(radius, res) {
      forall c, x, y | Within(c, x, y, res, radius)
        ensures InWindow(c, CellOf(x, y, res), WindowCells(radius, res))
      {
        WindowMissesNothing(c, x, y, res, radius);
      }
    } else {
      ShortWindowMisses(res, radius);
    }
  }

  /** A resolution of at least a nanometre is always enough. */
  lemma {:induction false} NanometreReaches(res: real, radius: real)
    requires res >= 0.000000001 && radius >= 0.0
    ensures WindowReaches(radius, res)
  {
    assert radius / res >= 0.0;
  }

  ghost function WindowHits(cfg: GridConfig, m: Flat, x: real, y: real, radius: real): set<Cell>
    requires cfg.Valid()
  {
    set c | c in Hits(cfg, m, x, y, radius)
            && InWindow(c, CellOf(x, y, cfg.resolution), WindowCells(radius, cfg.resolution))
  }

  lemma {:induction false} WindowHitsAreAll(cfg: GridConfig, m: Flat, x: real, y: real, radius: real)
    requires cfg.Valid() && WindowReaches(radius, cfg.resolution)
    ensures WindowHits(cfg, m, x, y, radius) == Hits(cfg, m, x, y, radius)
  {
    forall c | c in Hits(cfg, m, x, y, radius) ensures c in WindowHits(cfg, m, x, y, radius) {
      WindowMissesNothing(c, x, y, cfg.resolution, radius);
    }
  }

  /** A window that does not reach misses the only occupied cell of some map. */
  lemma {:induction false} ShortWindowMissesHit(cfg: GridConfig, radius: real, l: real)
    returns (m: Flat, x: real, y: real)
    requires cfg.Valid() && radius >= 0.0 && !WindowReaches(radius, cfg.resolution) && cfg.IsOccupied(l)
    ensures |m| == 1 && Hits(cfg, m, x, y, radius) == m.Keys && WindowHits(cfg, m, x, y, radius) == {}
  {
    hide Within, InWindow, CellOf, WindowCells, WindowReaches;
    ShortWindowMisses(cfg.resolution, radius);
    var c: Cell;
    c, x, y :| Within(c, x, y, cfg.resolution, radius)
               && !InWindow(c, CellOf(x, y, cfg.resolution), WindowCells(radius, cfg.resolution));
    m := map[c := l];
    assert m.Keys == {c};
  }

  /** What the search sees is all there is, on every map and from every query point, exactly when the window
      reaches, provided some log-odds count as occupied at all. */
  lemma {:induction false} SearchIsCompleteIff(cfg: GridConfig, radius: real, l: real)
    requires cfg.Valid() && radius >= 0.0 && cfg.IsOccupied(l)
    ensures WindowReaches(radius, cfg.resolution) <==>
            forall m, x, y :: WindowHits(cfg, m, x, y, radius) == Hits(cfg, m, x, y, radius)
  {
    hide WindowReaches, WindowHits, Hits;
    if WindowReaches(radius, cfg.resolution) {
      forall m, x, y ensures WindowHits(cfg, m, x, y, radius) == Hits(cfg, m, x, y, radius) {
        WindowHitsAreAll(cfg, m, x, y, radius);
      }
    } else {
      var m, x, y := ShortWindowMissesHit(cfg, radius, l);
    }
  }

  /** A valid configuration with a resolution of a tenth of a nanometre. */
  function Picometres(): GridConfig {
    GridConfig(1, 0.0000000001, -1.0, 1.0, 0.5, 0.25, 1, l => l)
  }

  /** Below a nanometre the clamp of the divisor cuts the window short: here the search covers 2 cells each
      way, the radius 20, and the only occupied cell, 20 cells to the left, is not found. */
  lemma {:induction false} PicometreFails()
    ensures var cfg, m, radius := Picometres(), map[Cell(-20, 0) := 1.0], 0.000000002;
            && cfg.Valid() && !WindowReaches(radius, cfg.resolution)
            && Hits(cfg, m, 0.0, 0.00000000005, radius) == {Cell(-20, 0)}
            && WindowHits(cfg, m, 0.0, 0.00000000005, radius) == {}
  {
    var cfg, radius := Picometres(), 0.000000002;
    assert radius / cfg.resolution == 20.0 && 0.00000000005 / cfg.resolution == 0.5 && 0.0 / cfg.resolution == 0.0;
    assert radius / 0.000000001 == 2.0;
    assert Centre(-20, cfg.resolution) == -19.5 * 0.0000000001 && Centre(0, cfg.resolution) == 0.00000000005;
    SquareOrder(-19.5 * 0.0000000001, radius);
    assert Square(0.0) == 0.0;
    assert Within(Cell(-20, 0), 0.0, 0.00000000005, cfg.resolution, radius);
  }

  /** Hits the row-by-row scan has passed when it stands at (gx, gy). */
  ghost function Passed(cfg: GridConfig, m: Flat, x: real, y: real, radius: real, gx: int, gy: int): set<Cell>
    requires cfg.Valid()
  {
    set c | c in WindowHits(cfg, m, x, y, radius) && (c.y < gy || (c.y == gy && c.x < gx))
  }

  ghost predicate SearchedTo(cfg: GridConfig, m: Flat, x: real, y: real, radius: real, gx: int, gy: int,
                             found: bool, distSq: real, best: real)
    requires cfg.Valid()
  {
    && IsNearest(Passed(cfg, m, x, y, radius, gx, gy), x, y, cfg.resolution, found, distSq)
    && best == (if found then distSq else Square(radius + cfg.resolution))
  }

  lemma {:induction false} SearchStart(cfg: GridConfig, m: Flat, x: real, y: real, radius: real)
    requires cfg.Valid()
    ensures var centre, r := CellOf(x, y, cfg.resolution), WindowCells(radius, cfg.resolution);
            SearchedTo(cfg, m, x, y, radius, centre.x - r, centre.y - r, false, 0.0, Square(radius + cfg.resolution))
  {
    var centre, r := CellOf(x, y, cfg.resolution), WindowCells(radius, cfg.resolution);
    assert Passed(cfg, m, x, y, radius, centre.x - r, centre.y - r) == {};
  }

  /** One cell of the scan. The search limit starts beyond the radius, so the first hit always counts. */
  lemma {:induction false} SearchStep(cfg: GridConfig, m: Flat, x: real, y: real, radius: real, c: Cell,
                                      found: bool, distSq: real, best: real)
    requires cfg.Valid() && radius >= 0.0
    requires SearchedTo(cfg, m, x, y, radius, c.x, c.y, found, distSq, best)
    requires InWindow(c, CellOf(x, y, cfg.resolution), WindowCells(radius, cfg.resolution))
    ensures var d := DistSq(c, x, y, cfg.resolution);
            if c in m && cfg.IsOccupied(m[c]) && d <= Square(radius) && d < best
            then SearchedTo(cfg, m, x, y, radius, c.x + 1, c.y, true, d, d)
            else SearchedTo(cfg, m, x, y, radius, c.x + 1, c.y, found, distSq, best)
  {
    ProductGrows(radius + cfg.resolution, radius);
    var before, after := Passed(cfg, m, x, y, radius, c.x, c.y), Passed(cfg, m, x, y, radius, c.x + 1, c.y);
    if c in WindowHits(cfg, m, x, y, radius) {
      assert after == before + {c};
    } else {
      assert after == before;
    }
  }

  lemma {:induction false} NextRow(cfg: GridConfig, m: Flat, x: real, y: real, radius: real, gy: int)
    requires cfg.Valid()
    ensures var centre, r := CellOf(x, y, cfg.resolution), WindowCells(radius, cfg.resolution);
            Passed(cfg, m, x, y, radius, centre.x + r + 1, gy) == Passed(cfg, m, x, y, radius, centre.x - r, gy + 1)
  {}

  lemma {:induction false} SearchDone(cfg: GridConfig, m: Flat, x: real, y: real, radius: real, gx: int)
    requires cfg.Valid()
    ensures var centre, r := CellOf(x, y, cfg.resolution), WindowCells(radius, cfg.resolution);
            Passed(cfg, m, x, y, radius, gx, centre.y + r + 1) == WindowHits(cfg, m, x, y, radius)
  {}
}
