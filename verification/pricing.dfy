/**
 Line-item pricing: numeric coercion of stored fields, the discounted unit
 price rounded the way `Math.round` rounds, line totals, and order totals as
 sums over the lines.
 */
module Pricing {

  /**
   A stored numeric field as `Number(x)` sees it: an integer, or something
   that converts to NaN (missing, or not a number).
   */
  datatype NumField = Number(n: int) | NotANumber

  /** One line of an order: a product reference and its price snapshot. */
  datatype LineItem = LineItem(productId: string, price: NumField, discountPercentage: NumField, quantity: NumField)

  /** `Number(x) || 0`: NaN (and 0 itself) become 0. */
  function Coerce(f: NumField): (r: int)
    ensures f.NotANumber? ==> r == 0
    ensures f.Number? ==> r == f.n
  {
    match f
    case Number(n) => n
    case NotANumber => 0
  }

  /**
   `Math.round` on an exact real: the nearest integer, halves rounded
   towards positive infinity.
   */
  function MathRound(x: real): (r: int)
    ensures x - 0.5 < r as real <= x + 0.5
  {
    (x + 0.5).Floor
  }

  /** The discounted unit price of a line, as the controller computes it. */
  function FinalUnitPrice(item: LineItem): int {
    var basePrice := Coerce(item.price);
    var discount := Coerce(item.discountPercentage);
    MathRound((basePrice * (100 - discount)) as real / 100.0)
  }

  /** The integer form of the rounding: half-up rounding of n / 100 under floor division. */
  function RoundedHundredths(n: int): (r: int)
    ensures n - 50 < 100 * r <= n + 50
  {
    (n + 50) / 100
  }

  /** Rounding n / 100 with `Math.round` agrees with the integer formula. */
  lemma MathRoundHundredths(n: int)
    ensures MathRound(n as real / 100.0) == RoundedHundredths(n)
  {
  }

  /**
   The rounding identity: the final unit price is
   (price * (100 - discount) + 50) div 100, and it is the integer nearest
   to price * (100 - discount) / 100 with halves rounded up.
   */
  lemma FinalUnitPriceIdentity(item: LineItem)
    ensures FinalUnitPrice(item) == (Coerce(item.price) * (100 - Coerce(item.discountPercentage)) + 50) / 100
    ensures var n := Coerce(item.price) * (100 - Coerce(item.discountPercentage));
            n - 50 < 100 * FinalUnitPrice(item) <= n + 50
  {
  }

  /** A line without a discount keeps its base price. */
  lemma NoDiscountKeepsPrice(item: LineItem)
    requires Coerce(item.discountPercentage) == 0
    ensures FinalUnitPrice(item) == Coerce(item.price)
  {
  }

  /** The total of one line: discounted unit price times quantity. */
  function LineTotal(item: LineItem): int {
    FinalUnitPrice(item) * Coerce(item.quantity)
  }

  /** The quantity a line contributes to the order's total quantity. */
  function Quantity(item: LineItem): int {
    Coerce(item.quantity)
  }

  /** The sum of f over a sequence, first element first. */
  function SumOf<T>(xs: seq<T>, f: T -> int): int {
    if |xs| == 0 then 0 else f(xs[0]) + SumOf(xs[1..], f)
  }

  /** Summing over a longer sequence adds the last element's value. */
  lemma {:induction false} SumOfAppend<T>(xs: seq<T>, x: T, f: T -> int)
    ensures SumOf(xs + [x], f) == SumOf(xs, f) + f(x)
  {
    if |xs| > 0 {
      assert (xs + [x])[1..] == xs[1..] + [x];
      SumOfAppend(xs[1..], x, f);
    }
  }

  /** Two sequences whose elements agree pointwise under f and g have equal sums. */
  lemma {:induction false} SumOfPointwise<T, U>(xs: seq<T>, f: T -> int, ys: seq<U>, g: U -> int)
    requires |xs| == |ys|
    requires forall i :: 0 <= i < |xs| ==> f(xs[i]) == g(ys[i])
    ensures SumOf(xs, f) == SumOf(ys, g)
  {
    if |xs| > 0 {
      assert f(xs[0]) == g(ys[0]);
      SumOfPointwise(xs[1..], f, ys[1..], g);
    }
  }

  /** An order's total quantity: the sum of its line quantities. */
  function SumQuantity(lines: seq<LineItem>): int {
    SumOf(lines, Quantity)
  }

  /** An order's total price: the sum of its line totals. */
  function SumPrice(lines: seq<LineItem>): int {
    SumOf(lines, LineTotal)
  }

  /** A line with zero (or non-numeric) price or quantity adds nothing to the order's total price. */
  lemma ZeroLineAddsNothing(lines: seq<LineItem>, item: LineItem)
    requires Coerce(item.price) == 0 || Coerce(item.quantity) == 0
    ensures LineTotal(item) == 0
    ensures SumPrice(lines + [item]) == SumPrice(lines)
    ensures SumQuantity(lines + [item]) == SumQuantity(lines) + Coerce(item.quantity)
  {
    FinalUnitPriceIdentity(item);
    SumOfAppend(lines, item, LineTotal);
    SumOfAppend(lines, item, Quantity);
  }

  /** The worked example: price 100000, discount 10%, quantity 2. */
  lemma WorkedExample()
    ensures var item := LineItem("p", Number(100000), Number(10), Number(2));
            FinalUnitPrice(item) == 90000 && LineTotal(item) == 180000
  {
  }
}
