/** What the numeric kernels and the file formats share: rounding to bfloat16 and the
    exponential as abstract functions, and row-major indexing. */
module ReferenceMath {

  /** What is used of rounding: rounded values stay put, and zero is one of them. */
  ghost predicate Rounding(round: real -> real) {
    round(0.0) == 0.0 && forall x :: round(round(x)) == round(x)
  }

  ghost predicate Positive(exp: real -> real) { forall x :: exp(x) > 0.0 }

  function RoundedProduct(a: real, b: real, round: real -> real): real { round(a * b) }

  lemma Multiples(d: int, n: int)
    requires n > 0
    ensures (d >= 1 ==> d * n >= n) && (d <= -1 ==> d * n <= -n) && (d == 0 ==> d * n == 0)
  {
    if d >= 1 { assert (d - 1) * n >= 0; }
    if d <= -1 { assert (-1 - d) * n >= 0; }
  }

  lemma Quotient(x: int, n: int, q: int, r: int)
    requires n > 0 && 0 <= r < n && x == q * n + r
    ensures x % n == r && x / n == q
  {
    var d := x / n - q;
    assert d * n == r - x % n;
    Multiples(d, n);
  }

  function Cell(row: nat, width: nat, column: nat): nat { row * width + column }

  lemma CellInRange(row: nat, rows: nat, width: nat, column: nat)
    requires row < rows && column < width
    ensures Cell(row, width, column) < rows * width
  {
    assert (rows - row - 1) * width >= 0;
  }

  lemma CellInjective(r: nat, c: nat, r': nat, c': nat, width: nat)
    requires c < width && c' < width && Cell(r, width, c) == Cell(r', width, c')
    ensures r == r' && c == c'
  {
    assert (r' - r) * width == c - c';
    Multiples(r' - r, width);
  }

  lemma RowStart(rows: nat, width: nat, row: nat)
    requires row < rows
    ensures row * width + width <= rows * width && (row + 1) * width == row * width + width
  {
    var rest: nat := rows - row - 1;
    Split(row, 1, width);
    Split(row + 1, rest, width);
  }

  lemma Split(a: nat, b: nat, c: nat)
    ensures (a + b) * c == a * c + b * c && b * c >= 0
  {
  }
}
