/** The integer line walk of ChunkedGrid::add_line_cells and of draw_line in tools/preview_map.py. */
module LineCells {

  datatype Cell = Cell(x: int, y: int)

  function Abs(a: int): nat { if a < 0 then -a else a }

  function Max(a: int, b: int): int { if a < b then b else a }

  function Min(a: int, b: int): int { if b < a then b else a }

  function Sign(from: int, to: int): int { if from < to then 1 else -1 }

  /** o cells from p in the direction of q. */
  function Toward(p: int, q: int, o: nat): int { if p < q then p + o else p - o }

  /** Number of moves of the walk: the longer side of the bounding box. */
  function Length(a: Cell, b: Cell): nat { Max(Abs(b.x - a.x), Abs(b.y - a.y)) }

  /** A position along one axis after k of n steps: whole cells, and twice the distance still missing
      to the ideal point, in n-ths of a cell. */
  datatype Progress = Progress(cells: nat, rest: int)

  /** Each step brings the ideal point side / n cells further; the position follows as soon as the
      ideal point is at least half a cell ahead. */
  function Advance(side: nat, n: nat, k: nat): Progress {
    if k == 0 then Progress(0, 0)
    else
      var p := Advance(side, n, k - 1);
      var rest := p.rest + 2 * side;
      if rest >= n then Progress(p.cells + 1, rest - 2 * n) else p.(rest := rest)
  }

  function Offset(side: nat, n: nat, k: nat): nat { Advance(side, n, k).cells }

  /** The k-th cell of the line from a to b. */
  function LineCell(a: Cell, b: Cell, k: nat): Cell {
    var n := Length(a, b);
    Cell(Toward(a.x, b.x, Offset(Abs(b.x - a.x), n, k)), Toward(a.y, b.y, Offset(Abs(b.y - a.y), n, k)))
  }

  lemma {:induction false} RestIsSmall(side: nat, n: nat, k: nat)
    requires side <= n && n > 0
    ensures -(n as int) <= Advance(side, n, k).rest < n
  {
    if k > 0 {
      RestIsSmall(side, n, k - 1);
    }
  }

  /** `rest` is what its name says. */
  lemma {:induction false} RestMeaning(side: nat, n: nat, k: nat)
    ensures Advance(side, n, k).rest == 2 * (side * k - n * Offset(side, n, k))
  {
    if k > 0 {
      RestMeaning(side, n, k - 1);
      MulNext(side, k - 1);
      MulNext(n, Offset(side, n, k - 1));
    }
  }

  lemma {:induction false} MulNext(k: int, a: int)
    ensures k * (a + 1) == k * a + k
  {}

  /** The position is the ideal offset side * k / n rounded to the nearest cell, halves up: no other
      integer is as close. */
  lemma {:induction false} OffsetIsNearest(side: nat, n: nat, k: nat, r: int)
    requires side <= n && n > 0
    ensures r == Offset(side, n, k) <==> 0 < 2 * (n * r - side * k) + n <= 2 * n
  {
    RestMeaning(side, n, k);
    RestIsSmall(side, n, k);
    var q := Offset(side, n, k);
    if r < q {
      MulGap(n, r, q);
    } else if r > q {
      MulGap(n, q, r);
    }
  }

  lemma {:induction false} MulMono(k: nat, a: int, b: int)
    requires a <= b
    ensures k * a <= k * b
  {}

  lemma {:induction false} MulGap(k: nat, a: int, b: int)
    requires a < b
    ensures k * a + k <= k * b
  {
    MulMono(k, a + 1, b);
    MulNext(k, a);
  }

  /** On the longer axis every step is a move. */
  lemma {:induction false} MajorAxis(n: nat, k: nat)
    requires n > 0
    ensures Advance(n, n, k) == Progress(k, 0)
  {
    if k > 0 {
      MajorAxis(n, k - 1);
    }
  }

  lemma {:induction false} OffsetEnds(side: nat, n: nat)
    requires side <= n && n > 0
    ensures Offset(side, n, 0) == 0 && Offset(side, n, n) == side
  {
    OffsetIsNearest(side, n, n, side);
    assert n * side == side * n;
  }

  lemma {:induction false} OffsetMonotone(side: nat, n: nat, j: nat, k: nat)
    requires j <= k
    ensures Offset(side, n, j) <= Offset(side, n, k)
    decreases k
  {
    if j < k {
      OffsetMonotone(side, n, j, k - 1);
    }
  }

  /** The line starts at a and ends at b. */
  lemma {:induction false} LineEnds(a: Cell, b: Cell)
    ensures LineCell(a, b, 0) == a && LineCell(a, b, Length(a, b)) == b
  {
    if Length(a, b) > 0 {
      OffsetEnds(Abs(b.x - a.x), Length(a, b));
      OffsetEnds(Abs(b.y - a.y), Length(a, b));
    }
  }

  /** It stays in their bounding box. */
  lemma {:induction false} LineInBox(a: Cell, b: Cell, k: nat)
    requires k <= Length(a, b)
    ensures var c := LineCell(a, b, k);
            && (a.x <= c.x <= b.x || b.x <= c.x <= a.x)
            && (a.y <= c.y <= b.y || b.y <= c.y <= a.y)
  {
    var n := Length(a, b);
    if n > 0 {
      OffsetEnds(Abs(b.x - a.x), n);
      OffsetEnds(Abs(b.y - a.y), n);
      OffsetMonotone(Abs(b.x - a.x), n, k, n);
      OffsetMonotone(Abs(b.y - a.y), n, k, n);
    }
  }

  /** Consecutive cells are distinct neighbours among the eight around a cell. */
  lemma {:induction false} LineIsConnected(a: Cell, b: Cell, k: nat)
    requires k < Length(a, b)
    ensures var c, d := LineCell(a, b, k), LineCell(a, b, k + 1);
            c != d && Abs(d.x - c.x) <= 1 && Abs(d.y - c.y) <= 1
  {
    MajorAxis(Length(a, b), k);
    MajorAxis(Length(a, b), k + 1);
  }

  /** No cell occurs twice on a line. */
  lemma {:induction false} LineIsInjective(a: Cell, b: Cell, j: nat, k: nat)
    requires j <= Length(a, b) && k <= Length(a, b) && LineCell(a, b, j) == LineCell(a, b, k)
    ensures j == k
  {
    if Length(a, b) > 0 {
      MajorAxis(Length(a, b), j);
      MajorAxis(Length(a, b), k);
    }
  }

  /** Every cell of the line is within half a cell of the ideal segment: at step k of n the ideal
      point is a + (k / n) * (b - a), and no coordinate is off by more than one half. */
  lemma {:induction false} LineIsClose(a: Cell, b: Cell, k: nat)
    requires k <= Length(a, b)
    ensures var n, c := Length(a, b), LineCell(a, b, k);
            && 2 * Abs(n * (c.x - a.x) - k * (b.x - a.x)) <= n
            && 2 * Abs(n * (c.y - a.y) - k * (b.y - a.y)) <= n
  {
    AxisIsClose(a.x, b.x, Length(a, b), k);
    AxisIsClose(a.y, b.y, Length(a, b), k);
  }

  lemma {:induction false} AxisIsClose(p: int, q: int, n: nat, k: nat)
    requires k <= n && Abs(q - p) <= n
    ensures 2 * Abs(n * (Toward(p, q, Offset(Abs(q - p), n, k)) - p) - k * (q - p)) <= n
  {
    var side, r := Abs(q - p), Offset(Abs(q - p), n, k);
    if n > 0 {
      RestMeaning(side, n, k);
      RestIsSmall(side, n, k);
      MulSign(n, r);
      MulSign(k, side);
    }
  }

  lemma {:induction false} MulSign(k: int, a: int)
    ensures k * (-a) == -(k * a) && k * a == a * k
  {}

  /** The walk under a budget: cells are inserted in line order from the k-th on, a cell that is
      already in the set costs nothing, and the walk stops when the budget is used up. */
  ghost function Insert(a: Cell, b: Cell, k: nat, out: set<Cell>, budget: int): (r: (set<Cell>, int))
    decreases Length(a, b) + 1 - k
  {
    if budget <= 0 || k > Length(a, b) then (out, budget)
    else
      var c := LineCell(a, b, k);
      Insert(a, b, k + 1, out + {c}, if c in out then budget else budget - 1)
  }

  /** One past the index of the last cell that walk visits. */
  ghost function VisitEnd(a: Cell, b: Cell, k: nat, out: set<Cell>, budget: int): nat
    decreases Length(a, b) + 1 - k
  {
    if budget <= 0 || k > Length(a, b) then k
    else
      var c := LineCell(a, b, k);
      VisitEnd(a, b, k + 1, out + {c}, if c in out then budget else budget - 1)
  }

  /** The k-th up to but not including the m-th cell. */
  ghost function Segment(a: Cell, b: Cell, k: nat, m: nat): set<Cell> {
    set i | k <= i < m :: LineCell(a, b, i)
  }

  /** Twice the walk's error term when it stands on the k-th cell. */
  ghost function TwiceErr(a: Cell, b: Cell, k: nat): int {
    var n, dx, dy := Length(a, b), Abs(b.x - a.x), Abs(b.y - a.y);
    2 * dx - 2 * dy + Advance(dx, n, k).rest - Advance(dy, n, k).rest
  }

  /** One turn of the loop takes the walk from the k-th to the (k+1)-th cell: the x test holds exactly
      when the x coordinate moves on, the y test exactly when the y coordinate does. */
  lemma {:induction false} WalkStep(a: Cell, b: Cell, k: nat)
    requires k < Length(a, b)
    ensures var c, d, e2 := LineCell(a, b, k), LineCell(a, b, k + 1), TwiceErr(a, b, k);
            var right, up := e2 + Abs(b.y - a.y) >= 0, e2 <= Abs(b.x - a.x);
            && d.x == c.x + (if right then Sign(a.x, b.x) else 0)
            && d.y == c.y + (if up then Sign(a.y, b.y) else 0)
            && TwiceErr(a, b, k + 1)
               == e2 - (if right then 2 * Abs(b.y - a.y) else 0) + (if up then 2 * Abs(b.x - a.x) else 0)
  {
    hide Advance, Toward, Sign;
    var n, dx, dy := Length(a, b), Abs(b.x - a.x), Abs(b.y - a.y);
    AxesStep(dx, dy, k);
    TowardNext(a.x, b.x, Offset(dx, n, k));
    TowardNext(a.y, b.y, Offset(dy, n, k));
    var e2 := TwiceErr(a, b, k);
    assert Offset(dx, n, k + 1) == Offset(dx, n, k) + (if e2 + dy >= 0 then 1 else 0);
    assert Offset(dy, n, k + 1) == Offset(dy, n, k) + (if e2 <= dx then 1 else 0);
    hide Abs, Max;
  }

  lemma {:induction false} TowardNext(p: int, q: int, moves: nat)
    ensures Toward(p, q, moves + 1) == Toward(p, q, moves) + Sign(p, q)
  {}

  lemma {:induction false} AxesStep(dx: nat, dy: nat, k: nat)
    requires k < Max(dx, dy)
    ensures var n := Max(dx, dy);
            var p, q := Advance(dx, n, k), Advance(dy, n, k);
            var e2 := 2 * dx - 2 * dy + p.rest - q.rest;
            && Advance(dx, n, k + 1).cells == p.cells + (if e2 + dy >= 0 then 1 else 0)
            && Advance(dy, n, k + 1).cells == q.cells + (if e2 <= dx then 1 else 0)
            && Advance(dx, n, k + 1).rest - Advance(dy, n, k + 1).rest - p.rest + q.rest
               == (if e2 <= dx then 2 * dx else 0) - (if e2 + dy >= 0 then 2 * dy else 0)
  {
    var n := Max(dx, dy);
    MajorAxis(n, k);
    RestIsSmall(dx, n, k);
    RestIsSmall(dy, n, k);
  }

  lemma {:induction false} ErrStarts(a: Cell, b: Cell)
    ensures LineCell(a, b, 0) == a && TwiceErr(a, b, 0) == 2 * Abs(b.x - a.x) - 2 * Abs(b.y - a.y)
  {}

  lemma {:induction false} InsertNext(a: Cell, b: Cell, k: nat, out: set<Cell>, budget: int)
    requires k <= Length(a, b) && budget > 0
    ensures var c := LineCell(a, b, k);
            Insert(a, b, k, out, budget) == Insert(a, b, k + 1, out + {c}, if c in out then budget else budget - 1)
  {}

  lemma {:induction false} InsertEnds(a: Cell, b: Cell, k: nat, out: set<Cell>, budget: int)
    requires k > Length(a, b) || budget <= 0
    ensures Insert(a, b, k, out, budget) == (out, budget)
  {}

  /** The walk stands on the last cell only at the end of the line. */
  lemma {:induction false} EndIsReached(a: Cell, b: Cell, k: nat)
    requires k <= Length(a, b)
    ensures LineCell(a, b, k) == b <==> k == Length(a, b)
  {
    hide LineCell;
    LineEnds(a, b);
    if LineCell(a, b, k) == b {
      LineIsInjective(a, b, k, Length(a, b));
    }
  }

  /** add_line_cells: inserts the line's cells into `out` until the end or until the budget is spent. */
  method AddLineCells(a: Cell, b: Cell, cells: set<Cell>, allowance: int) returns (out: set<Cell>, budget: int)
    ensures (out, budget) == Insert(a, b, 0, cells, allowance)
  {
    hide LineCell, TwiceErr, Insert, Length;
    out, budget := cells, allowance;
    var x0, y0 := a.x, a.y;
    var dx: int, sx := Abs(b.x - a.x), Sign(a.x, b.x);
    var ady: int := Abs(b.y - a.y);
    var dy, sy := -ady, Sign(a.y, b.y);
    var err := dx + dy;
    ghost var k := 0;
    ErrStarts(a, b);
    while budget > 0
      invariant k <= Length(a, b) && Cell(x0, y0) == LineCell(a, b, k) && 2 * err == TwiceErr(a, b, k)
      invariant Insert(a, b, k, out, budget) == Insert(a, b, 0, cells, allowance)
      decreases Length(a, b) - k
    {
      InsertNext(a, b, k, out, budget);
      EndIsReached(a, b, k);
      if Cell(x0, y0) !in out {
        budget := budget - 1;
      }
      out := out + {Cell(x0, y0)};
      if x0 == b.x && y0 == b.y {
        InsertEnds(a, b, k + 1, out, budget);
        return;
      }
      WalkStep(a, b, k);
      var e2 := 2 * err;
      if e2 >= dy {
        err, x0 := err + dy, x0 + sx;
      }
      if e2 <= dx {
        err, y0 := err + dx, y0 + sy;
      }
      k := k + 1;
    }
    InsertEnds(a, b, k, out, budget);
  }

  /** What the budgeted walk leaves behind: a stretch of the line from where it began, added to what
      was there. The walk goes on until the line ends or the budget is spent. */
  lemma {:induction false} InsertIsSegment(a: Cell, b: Cell, k: nat, out: set<Cell>, budget: nat)
    requires k <= Length(a, b) + 1
    ensures var (r, left) := Insert(a, b, k, out, budget);
            var m := VisitEnd(a, b, k, out, budget);
            && k <= m <= Length(a, b) + 1
            && r == out + Segment(a, b, k, m)
            && (m <= Length(a, b) ==> left == 0)
    decreases Length(a, b) + 1 - k
  {
    var c := LineCell(a, b, k);
    if budget == 0 || k > Length(a, b) {
      assert Segment(a, b, k, k) == {};
    } else {
      InsertIsSegment(a, b, k + 1, out + {c}, if c in out then budget else budget - 1);
      SegmentSplit(a, b, k, VisitEnd(a, b, k, out, budget));
    }
  }

  /** Each unit of budget pays for one new cell. */
  lemma {:induction false} InsertSpends(a: Cell, b: Cell, k: nat, out: set<Cell>, budget: nat)
    ensures var (r, left) := Insert(a, b, k, out, budget);
            out <= r && left == budget - |r - out| >= 0
    decreases Length(a, b) + 1 - k
  {
    var c := LineCell(a, b, k);
    var r := Insert(a, b, k, out, budget).0;
    if budget == 0 || k > Length(a, b) {
      assert r - out == {};
    } else {
      InsertSpends(a, b, k + 1, out + {c}, if c in out then budget else budget - 1);
      NewCells(out, c, r);
      assert {c} + r == r;
    }
  }

  /** The walk stops no earlier than it must: at every cell it visits there was budget left. */
  lemma {:induction false} VisitsWhileBudget(a: Cell, b: Cell, k: nat, out: set<Cell>, budget: nat, j: nat)
    requires k <= j < VisitEnd(a, b, k, out, budget)
    ensures |Segment(a, b, k, j) - out| < budget
    decreases Length(a, b) + 1 - k
  {
    var c := LineCell(a, b, k);
    if j == k {
      assert Segment(a, b, k, k) - out == {};
    } else {
      VisitsWhileBudget(a, b, k + 1, out + {c}, if c in out then budget else budget - 1, j);
      SegmentSplit(a, b, k, j);
      NewCells(out, c, Segment(a, b, k + 1, j));
    }
  }

  lemma {:induction false} NewCells(out: set<Cell>, c: Cell, rest: set<Cell>)
    ensures |({c} + rest) - out| == |rest - (out + {c})| + (if c in out then 0 else 1)
  {
    if c in out {
      assert ({c} + rest) - out == rest - (out + {c});
    } else {
      assert ({c} + rest) - out == (rest - (out + {c})) + {c};
    }
  }

  lemma {:induction false} SegmentSplit(a: Cell, b: Cell, k: nat, m: nat)
    requires k < m
    ensures Segment(a, b, k, m) == {LineCell(a, b, k)} + Segment(a, b, k + 1, m)
  {
    forall c | c in Segment(a, b, k, m) ensures c in {LineCell(a, b, k)} + Segment(a, b, k + 1, m) {
      var i :| k <= i < m && LineCell(a, b, i) == c;
    }
  }

  lemma {:induction false} SegmentSize(a: Cell, b: Cell, k: nat, m: nat)
    requires k <= m <= Length(a, b) + 1
    ensures |Segment(a, b, k, m)| == m - k
    decreases m - k
  {
    if k == m {
      assert Segment(a, b, k, k) == {};
    } else {
      SegmentSize(a, b, k + 1, m);
      SegmentSplit(a, b, k, m);
      if LineCell(a, b, k) in Segment(a, b, k + 1, m) {
        var i :| k + 1 <= i < m && LineCell(a, b, i) == LineCell(a, b, k);
        LineIsInjective(a, b, i, k);
      }
    }
  }

  /** With one unit of budget per cell the whole line is inserted, whatever was in the set before. */
  lemma {:induction false} EnoughBudget(a: Cell, b: Cell, out: set<Cell>, budget: nat)
    requires budget > Length(a, b)
    ensures Insert(a, b, 0, out, budget).0 == out + Segment(a, b, 0, Length(a, b) + 1)
  {
    InsertIsSegment(a, b, 0, out, budget);
    InsertSpends(a, b, 0, out, budget);
    var m := VisitEnd(a, b, 0, out, budget);
    var r := Insert(a, b, 0, out, budget).0;
    SegmentSize(a, b, 0, m);
    SubsetSize(r - out, Segment(a, b, 0, m));
  }

  lemma {:induction false} SubsetSize<T>(s: set<T>, t: set<T>)
    requires s <= t
    ensures |s| <= |t|
  {
    assert t == s + (t - s);
  }
}
