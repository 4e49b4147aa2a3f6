/** Where a cell lives: square chunks of cc * cc cells, addressed by floor division
    (include/robot_slamd/core/grid.hpp). C++ division truncates toward zero, and the code corrects it. */
module ChunkAddress {
  import opened LineCells

  /** The C++ quotient and remainder for a positive divisor: the quotient truncates toward zero, the
      remainder has the sign of the dividend. */
  function TruncDiv(a: int, b: int): int
    requires b > 0
    decreases Abs(a)
  {
    if a >= b then TruncDiv(a - b, b) + 1 else if a <= -b then TruncDiv(a + b, b) - 1 else 0
  }

  function TruncMod(a: int, b: int): int
    requires b > 0
    decreases Abs(a)
  {
    if a >= b then TruncMod(a - b, b) else if a <= -b then TruncMod(a + b, b) else a
  }

  lemma {:induction false} TruncDivMeaning(a: int, b: int)
    requires b > 0
    ensures a == b * TruncDiv(a, b) + TruncMod(a, b)
    ensures if a >= 0 then 0 <= TruncMod(a, b) < b && TruncDiv(a, b) >= 0 else -b < TruncMod(a, b) <= 0
    decreases Abs(a)
  {
    if a >= b {
      TruncDivMeaning(a - b, b);
      MulNext(b, TruncDiv(a - b, b));
    } else if a <= -b {
      TruncDivMeaning(a + b, b);
      MulNext(b, TruncDiv(a, b));
    }
  }

  function FloorDiv(a: int, b: int): int
    requires b > 0
  {
    var q, r := TruncDiv(a, b), TruncMod(a, b);
    if r != 0 && ((r < 0) != (b < 0)) then q - 1 else q
  }

  function Mod(a: int, b: int): int
    requires b > 0
  {
    var r := TruncMod(a, b);
    if r < 0 then r + b else r
  }

  /** The corrected division is the floor division, for negative coordinates too: quotient and
      remainder are the only pair with a == b * q + r and 0 <= r < b. */
  lemma {:induction false} FloorDivMeaning(a: int, b: int, q: int, r: int)
    requires b > 0
    ensures q == FloorDiv(a, b) && r == Mod(a, b) <==> a == b * q + r && 0 <= r < b
  {
    var q', r' := FloorDiv(a, b), Mod(a, b);
    FloorDivExists(a, b);
    if a == b * q + r && 0 <= r < b {
      if q < q' {
        MulGap(b, q, q');
      } else if q > q' {
        MulGap(b, q', q);
      }
    }
  }

  lemma {:induction false} FloorDivExists(a: int, b: int)
    requires b > 0
    ensures a == b * FloorDiv(a, b) + Mod(a, b) && 0 <= Mod(a, b) < b
  {
    TruncDivMeaning(a, b);
    MulNext(b, TruncDiv(a, b) - 1);
  }

  type Key = (int, int)

  function KeyOf(c: Cell, cc: nat): Key
    requires cc > 0
  {
    (FloorDiv(c.x, cc), FloorDiv(c.y, cc))
  }

  /** Multiplication as repeated addition, so that addressing stays within linear arithmetic. */
  function Times(n: nat, size: nat): nat { if n == 0 then 0 else Times(n - 1, size) + size }

  lemma {:induction false} TimesIsProduct(n: nat, size: nat)
    ensures Times(n, size) == n * size
  {
    if n > 0 {
      TimesIsProduct(n - 1, size);
      MulSign(n, size);
      MulSign(n - 1, size);
      MulNext(size, n - 1);
    }
  }

  /** Positions in one chunk: cc rows of cc cells. */
  function Area(cc: nat): nat { Times(cc, cc) }

  function IndexOf(c: Cell, cc: nat): (i: nat)
    requires cc > 0
    ensures i < Area(cc)
  {
    FloorDivExists(c.x, cc);
    FloorDivExists(c.y, cc);
    IndexBound(Mod(c.x, cc), Mod(c.y, cc), cc, cc);
    Times(Mod(c.y, cc), cc) + Mod(c.x, cc)
  }

  lemma {:induction false} IndexBound(lx: int, ly: nat, cc: nat, rows: nat)
    requires 0 <= lx < cc && ly < rows
    ensures Times(ly, cc) + lx < Times(rows, cc)
    decreases rows
  {
    if ly < rows - 1 {
      IndexBound(lx, ly, cc, rows - 1);
    }
  }

  /** The cell stored at position i of the chunk with key k. */
  function CellAt(k: Key, i: nat, cc: nat): Cell
    requires cc > 0
  {
    Cell(cc * k.0 + TruncMod(i, cc), cc * k.1 + TruncDiv(i, cc))
  }

  /** Addressing is a bijection between cells and (chunk, position) pairs. */
  lemma {:induction false} AddressOfCell(c: Cell, cc: nat)
    requires cc > 0
    ensures CellAt(KeyOf(c, cc), IndexOf(c, cc), cc) == c
  {
    FloorDivExists(c.x, cc);
    FloorDivExists(c.y, cc);
    IndexSplit(Mod(c.x, cc), Mod(c.y, cc), cc);
  }

  lemma {:induction false} IndexSplit(lx: int, ly: nat, cc: nat)
    requires 0 <= lx < cc
    ensures TruncDiv(Times(ly, cc) + lx, cc) == ly && TruncMod(Times(ly, cc) + lx, cc) == lx
    decreases ly
  {
    if ly > 0 {
      IndexSplit(lx, ly - 1, cc);
    }
  }

  lemma {:induction false} AddressIsInjective(c: Cell, d: Cell, cc: nat)
    requires cc > 0 && KeyOf(c, cc) == KeyOf(d, cc) && IndexOf(c, cc) == IndexOf(d, cc)
    ensures c == d
  {
    AddressOfCell(c, cc);
    AddressOfCell(d, cc);
  }

  lemma {:induction false} CellOfAddress(k: Key, i: nat, cc: nat)
    requires cc > 0 && i < Area(cc)
    ensures KeyOf(CellAt(k, i, cc), cc) == k && IndexOf(CellAt(k, i, cc), cc) == i
  {
    var q, r := TruncDiv(i, cc), TruncMod(i, cc);
    RowBound(i, cc, cc);
    FloorDivMeaning(cc * k.0 + r, cc, k.0, r);
    FloorDivMeaning(cc * k.1 + q, cc, k.1, q);
  }

  lemma {:induction false} RowBound(i: nat, rows: nat, cc: nat)
    requires cc > 0 && i < Times(rows, cc)
    ensures 0 <= TruncDiv(i, cc) < rows && 0 <= TruncMod(i, cc) < cc
    ensures i == Times(TruncDiv(i, cc), cc) + TruncMod(i, cc)
    decreases rows
  {
    if i >= cc {
      RowBound(i - cc, rows - 1, cc);
    }
  }
}
