/** Drawing a trajectory over the map image (tools/preview_map.py): the same line walk without a
    budget, stamping a small square at each cell. The image is an array of pixels, row by row. */
module PreviewMap {
  import opened LineCells
  import opened ChunkAddress

  datatype Rgb = Rgb(r: int, g: int, b: int)

  function PixelAt(i: nat, width: nat): Cell
    requires width > 0
  {
    Cell(TruncMod(i, width), TruncDiv(i, width))
  }

  predicate Near(p: Cell, q: Cell, radius: int) { Abs(p.x - q.x) <= radius && Abs(p.y - q.y) <= radius }

  /** The part of a stamp that is done when the scan stands at (x, y). */
  predicate StampedTo(p: Cell, q: Cell, radius: int, x: int, y: int) {
    Near(p, q, radius) && (p.y < y || (p.y == y && p.x < x))
  }

  /** set_px: stamps the part of the square around q that lies inside the image. */
  method SetPx(img: array<Rgb>, width: nat, height: nat, q: Cell, color: Rgb, radius: nat)
    requires width > 0 && img.Length == Times(height, width)
    modifies img
    ensures forall i :: 0 <= i < img.Length ==>
              img[i] == if Near(PixelAt(i, width), q, radius) then color else old(img[i])
  {
    var y := q.y - radius;
    while y < q.y + radius + 1
      invariant q.y - radius <= y <= q.y + radius + 1
      invariant forall i :: 0 <= i < img.Length ==>
                  img[i] == if StampedTo(PixelAt(i, width), q, radius, q.x - radius, y) then color else old(img[i])
    {
      var x := q.x - radius;
      while x < q.x + radius + 1
        invariant q.x - radius <= x <= q.x + radius + 1
        invariant forall i :: 0 <= i < img.Length ==>
                    img[i] == if StampedTo(PixelAt(i, width), q, radius, x, y) then color else old(img[i])
      {
        if 0 <= x < width && 0 <= y < height {
          IndexBound(x, y, width, height);
          img[Times(y, width) + x] := color;
        }
        forall i | 0 <= i < img.Length ensures PixelAt(i, width) == Cell(x, y) <==>
                                               0 <= x < width && 0 <= y < height && i == Times(y, width) + x
        {
          PixelIndex(i, x, y, width, height);
        }
        x := x + 1;
      }
      y := y + 1;
    }
  }

  lemma {:induction false} PixelIndex(i: nat, x: int, y: int, width: nat, height: nat)
    requires width > 0 && i < Times(height, width)
    ensures PixelAt(i, width) == Cell(x, y) <==> 0 <= x < width && 0 <= y < height && i == Times(y, width) + x
  {
    RowBound(i, height, width);
    if 0 <= x < width && 0 <= y {
      IndexSplit(x, y, width);
    }
  }

  ghost predicate OnStroke(p: Cell, a: Cell, b: Cell, m: nat) {
    exists k :: 0 <= k < m && Near(p, LineCell(a, b, k), 1)
  }

  /** draw_line: a pixel gets the colour exactly when it is at most one pixel away, in each direction,
      from some cell of the line. Every other pixel keeps its colour. */
  method DrawLine(img: array<Rgb>, width: nat, height: nat, a: Cell, b: Cell, color: Rgb)
    requires width > 0 && img.Length == Times(height, width)
    modifies img
    ensures forall i :: 0 <= i < img.Length ==>
              img[i] == if OnStroke(PixelAt(i, width), a, b, Length(a, b) + 1) then color else old(img[i])
  {
    var x0, y0 := a.x, a.y;
    var dx: int, sx := Abs(b.x - a.x), Sign(a.x, b.x);
    var ady: int := Abs(b.y - a.y);
    var dy, sy := -ady, Sign(a.y, b.y);
    var err := dx + dy;
    ghost var k := 0;
    hide LineCell, TwiceErr, Length, OnStroke;
    ErrStarts(a, b);
    NoStroke(a, b);
    while true
      invariant k <= Length(a, b) && Cell(x0, y0) == LineCell(a, b, k) && 2 * err == TwiceErr(a, b, k)
      invariant forall i :: 0 <= i < img.Length ==>
                  img[i] == if OnStroke(PixelAt(i, width), a, b, k) then color else old(img[i])
      decreases Length(a, b) - k
    {
      EndIsReached(a, b, k);
      SetPx(img, width, height, Cell(x0, y0), color, 1);
      forall p: Cell {
        StrokeStep(p, a, b, k);
      }
      if x0 == b.x && y0 == b.y {
        break;
      }
      WalkStep(a, b, k);
      var e2 := 2 * err;
      if e2 >= dy {
        err, x0 := err + dy, x0 + sx;
      }
      if e2 <= dx {
        err, y0 := err + dx, y0 + sy;
      }
      k := k + 1;
    }
  }

  lemma {:induction false} NoStroke(a: Cell, b: Cell)
    ensures forall p :: !OnStroke(p, a, b, 0)
  {}

  lemma {:induction false} StrokeStep(p: Cell, a: Cell, b: Cell, m: nat)
    ensures OnStroke(p, a, b, m + 1) <==> OnStroke(p, a, b, m) || Near(p, LineCell(a, b, m), 1)
  {
    if OnStroke(p, a, b, m) {
      var k :| 0 <= k < m && Near(p, LineCell(a, b, k), 1);
    }
  }
}
