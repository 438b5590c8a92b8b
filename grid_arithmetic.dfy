// Integer facts about numbering the cells of a grid row by row.
module GridArithmetic {
  lemma {:induction false} MulAtLeast(a: int, h: int)
    requires a >= 1 && h > 0
    ensures a * h >= h
  {
    if a > 1 {
      MulAtLeast(a - 1, h);
      assert a * h == (a - 1) * h + h;
    }
  }

  /** Euclidean division is unique. */
  lemma DivModUnique(n: int, h: int, q: int, r: int)
    requires h > 0 && 0 <= r < h && n == q * h + r
    ensures n / h == q && n % h == r
  {
    var q', r' := n / h, n % h;
    assert n == q' * h + r';
    assert (q - q') * h == r' - r;
    if q > q' {
      MulAtLeast(q - q', h);
    } else if q < q' {
      MulAtLeast(q' - q, h);
    }
  }

  /** A number is its quotient times the divisor plus its remainder. */
  lemma DivModIdentity(n: int, h: int)
    requires h > 0
    ensures n == (n / h) * h + n % h
  {
  }

  /** Row-major numbering: cell (x, y) of a grid `height` tall is number x * height + y. */
  lemma CellNumber(x: nat, y: nat, height: nat)
    requires y < height
    ensures (x * height + y) / height == x && (x * height + y) % height == y
  {
    DivModUnique(x * height + y, height, x, y);
  }

  /** Every cell of a w-by-h grid gets a number below w * h. */
  lemma CellInGrid(x: nat, y: nat, w: nat, h: nat)
    requires x < w && y < h
    ensures x * h + y < w * h
  {
    if x < w - 1 {
      MulAtLeast(w - 1 - x, h);
    }
    assert w * h == (w - 1 - x) * h + x * h + h;
  }
}
