/**
 The decimal arithmetic the bot shares: exact values are `real`, and amounts that the
 program rounds go through one of the roundings below (backend/core/constants.py).
 */
module Decimals {
  datatype Option<+T> = None | Some(value: T)

  /** OrderSide: the direction of an order, and of the position it opens. */
  datatype Side = Buy | Sell {
    /** A quantity as bought (positive) or sold (negative). */
    function Signed(quantity: real): real { if this.Buy? then quantity else -quantity }

    function Opposite(): Side { if this.Buy? then Sell else Buy }
  }

  /** The quantization step, 1e-8. */
  const ULP: real := 0.00000001

  function Abs(x: real): real { if x < 0.0 then -x else x }
  function Min(x: real, y: real): real { if x <= y then x else y }
  function Max(x: real, y: real): real { if x >= y then x else y }

  /** An exact product of two amounts, before any rounding. */
  function Product(x: real, y: real): real { x * y }

  /** Profit of a position of this side between an entry and a later price. */
  function PnlAt(side: Side, quantity: real, entry: real, mark: real): real {
    if side.Buy? then (mark - entry) * quantity else (entry - mark) * quantity
  }

  lemma MulNonNegative(x: real, y: real)
    requires 0.0 <= x && 0.0 <= y
    ensures 0.0 <= x * y
  {}

  /** A value that eight decimals represent exactly. */
  predicate OnGrid(x: real) { (x * 100000000.0).Floor as real == x * 100000000.0 }

  function RoundHalfEven(x: real): int {
    var f := x.Floor;
    var d := x - f as real;
    if d < 0.5 || (d == 0.5 && f % 2 == 0) then f else f + 1
  }

  lemma GridPoint(n: int)
    ensures (n as real / 100000000.0) * 100000000.0 == n as real
    ensures OnGrid(n as real / 100000000.0)
  {}

  /** `Decimal.quantize(QUANT)`: the nearest multiple of 1e-8, ties to even. */
  function Quantize(x: real): (r: real)
    ensures OnGrid(r)
    ensures 2.0 * Abs(r - x) <= ULP
    ensures OnGrid(x) ==> r == x
  {
    var n := RoundHalfEven(x * 100000000.0);
    GridPoint(n);
    n as real / 100000000.0
  }

  /** `quantize(QUANT, rounding=ROUND_DOWN)` on a non-negative value. */
  function QuantizeDown(x: real): (r: real)
    requires 0.0 <= x
    ensures OnGrid(r) && 0.0 <= r <= x < r + ULP
  {
    GridPoint((x * 100000000.0).Floor);
    (x * 100000000.0).Floor as real / 100000000.0
  }

  /** `quantize(QUANT, rounding=ROUND_UP)` on a non-negative value. */
  function QuantizeUp(x: real): (r: real)
    requires 0.0 <= x
    ensures OnGrid(r) && r - ULP < x <= r
  {
    var n := (x * 100000000.0).Floor;
    GridPoint(n); GridPoint(n + 1);
    if n as real == x * 100000000.0 then n as real / 100000000.0 else (n + 1) as real / 100000000.0
  }

  lemma QuantizeEqual(x: real, y: real)
    requires x == y
    ensures Quantize(x) == Quantize(y)
  {}

  lemma QuantizeNonNegative(x: real)
    requires 0.0 <= x
    ensures 0.0 <= Quantize(x)
  {
    var n := (Quantize(x) * 100000000.0).Floor;
    assert n as real > -1.0;
  }

  lemma ScaledSum(x: real, y: real)
    ensures (x + y) * 100000000.0 == x * 100000000.0 + y * 100000000.0
    ensures (x - y) * 100000000.0 == x * 100000000.0 - y * 100000000.0
    ensures (-x) * 100000000.0 == -(x * 100000000.0)
  {}

  lemma WholeIsFloor(n: int)
    ensures (n as real).Floor == n
  {}

  /** Sums and differences of eight-decimal values need no further rounding. */
  lemma GridClosed(x: real, y: real)
    requires OnGrid(x) && OnGrid(y)
    ensures OnGrid(x + y) && OnGrid(x - y) && OnGrid(-x)
  {
    var m, n := (x * 100000000.0).Floor, (y * 100000000.0).Floor;
    ScaledSum(x, y);
    WholeIsFloor(m + n);
    WholeIsFloor(m - n);
    WholeIsFloor(-m);
  }

  /** Two grid values less than two steps apart are at most one step apart. */
  lemma GridGap(x: real, y: real)
    requires OnGrid(x) && OnGrid(y) && Abs(x - y) < 2.0 * ULP
    ensures Abs(x - y) <= ULP
  {
    GridClosed(x, y);
    var n := ((x - y) * 100000000.0).Floor;
    assert -2 < n < 2;
  }

  /** Splitting an amount into two rounded parts loses or gains at most one step. */
  lemma SplitError(x: real, f: real)
    ensures Abs(Quantize(Product(x, f)) + Quantize(Product(x, 1.0 - f)) - x) <= ULP
  {
    assert x * f + x * (1.0 - f) == x;
  }
}
