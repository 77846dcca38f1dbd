/**
 * The pricing engine: one cart line's price, and VAT on an amount.
 * All amounts are integer cents; VAT rates are integer basis points.
 */
module Pricing {
  import opened Common

  datatype SelectedOption = SelectedOption(
    groupId: string,
    groupName: string,
    optionId: string,
    optionName: string,
    priceDeltaCents: int)

  datatype AddOn = AddOn(addOnId: string, name: string, priceCents: int, quantity: int)

  datatype Breakdown = Breakdown(
    basePriceCents: int,
    optionAdjustmentCents: int,
    addOnTotalCents: int,
    unitPriceCents: int,
    quantity: int,
    lineTotalCents: int)

  function OptionAdjustment(options: seq<SelectedOption>): int {
    Sum(seq(|options|, i requires 0 <= i < |options| => options[i].priceDeltaCents))
  }

  function AddOnTotal(addOns: seq<AddOn>): int {
    Sum(seq(|addOns|, i requires 0 <= i < |addOns| => addOns[i].priceCents * addOns[i].quantity))
  }

  /** Each option moves the price by its delta. */
  lemma OptionAdjustmentSnoc(options: seq<SelectedOption>, o: SelectedOption)
    ensures OptionAdjustment([]) == 0
    ensures OptionAdjustment(options + [o]) == OptionAdjustment(options) + o.priceDeltaCents
  {
    var more := options + [o];
    assert seq(|more|, i requires 0 <= i < |more| => more[i].priceDeltaCents)[..|options|]
           == seq(|options|, i requires 0 <= i < |options| => options[i].priceDeltaCents);
  }

  /** Each add-on costs its price times its quantity. */
  lemma AddOnTotalSnoc(addOns: seq<AddOn>, a: AddOn)
    ensures AddOnTotal([]) == 0
    ensures AddOnTotal(addOns + [a]) == AddOnTotal(addOns) + a.quantity * a.priceCents
  {
    var more := addOns + [a];
    assert seq(|more|, i requires 0 <= i < |more| => more[i].priceCents * more[i].quantity)[..|addOns|]
           == seq(|addOns|, i requires 0 <= i < |addOns| => addOns[i].priceCents * addOns[i].quantity);
  }

  /** The unit price is base plus options plus add-ons, never below zero. */
  lemma UnitPriceIs(base: int, options: seq<SelectedOption>, addOns: seq<AddOn>)
    ensures var p, exact := UnitPrice(base, options, addOns), base + OptionAdjustment(options) + AddOnTotal(addOns);
            p >= 0 && p >= exact && (p == exact || p == 0)
  {
  }

  function UnitPrice(base: int, options: seq<SelectedOption>, addOns: seq<AddOn>): int {
    Max(0, base + OptionAdjustment(options) + AddOnTotal(addOns))
  }

  function LineItem(base: int, options: seq<SelectedOption>, addOns: seq<AddOn>, quantity: int): Breakdown {
    var unit := UnitPrice(base, options, addOns);
    Breakdown(base, OptionAdjustment(options), AddOnTotal(addOns), unit, quantity, unit * quantity)
  }

  // ---- VAT ----

  /** n/d rounded to the nearest integer, ties up (n not negative). */
  function RoundHalfUp(n: nat, d: nat): (r: nat)
    requires d > 0
    ensures 2 * n - d < 2 * (d * r) <= 2 * n + d
  {
    var r := (2 * n + d) / (2 * d);
    assert 2 * n + d == 2 * d * r + (2 * n + d) % (2 * d);
    r
  }

  lemma Distribute(d: int, x: int, y: int)
    ensures d * (x + y) == d * x + d * y
  {
  }

  /** Multiples of d that are less than d apart do not overtake each other. */
  lemma ScaledOrder(d: nat, x: int, y: int)
    requires d > 0 && d * x < d * y + d
    ensures x <= y
  {
    var k := x - y;
    Distribute(d, y, k);
    if k >= 1 {
      ScaledAtLeast(d, k);
      assert false;
    }
  }

  lemma ScaledAtLeast(d: nat, k: int)
    requires k >= 1
    ensures d * k >= d
  {
  }

  /** The two inequalities pin the rounded value down. */
  lemma RoundHalfUpUnique(n: nat, d: nat, r: int)
    requires d > 0
    requires 2 * n - d < 2 * (d * r) <= 2 * n + d
    ensures r == RoundHalfUp(n, d)
  {
    ScaledOrder(d, r, RoundHalfUp(n, d));
    ScaledOrder(d, RoundHalfUp(n, d), r);
  }

  function Divisor(rate: int, inclusive: bool): int {
    if inclusive then 10000 + rate else 10000
  }

  function CalculateVat(amount: int, rate: int, inclusive: bool): (vat: nat) {
    if rate <= 0 || amount <= 0 then 0 else RoundHalfUp(amount * rate, Divisor(rate, inclusive))
  }

  function ApplyVat(net: int, rate: int, inclusive: bool): (int, nat) {
    var vat := CalculateVat(net, rate, inclusive);
    (if inclusive then net else net + vat, vat)
  }

  /** VAT written as a rounding of amount*rate/divisor, for any amount and rate that are not negative. */
  lemma VatBounds(amount: nat, rate: nat, inclusive: bool)
    ensures var v, d := CalculateVat(amount, rate, inclusive), Divisor(rate, inclusive);
            2 * (amount * rate) - d < 2 * (d * v) <= 2 * (amount * rate) + d
  {
  }

  /**
   * Taking the inclusive VAT back out of subtotal + exclusive VAT returns that VAT:
   * the stored VAT of an issued invoice can be recovered from its total.
   */
  lemma VatRoundTrip(subtotal: int, rate: int)
    ensures var (total, vat) := ApplyVat(subtotal, rate, false);
            CalculateVat(total, rate, true) == vat && total - vat == subtotal
  {
    if subtotal > 0 && rate > 0 {
      var v := CalculateVat(subtotal, rate, false);
      assert (subtotal + v) * rate == subtotal * rate + v * rate;
      assert (10000 + rate) * v == 10000 * v + v * rate;
      RoundHalfUpUnique((subtotal + v) * rate, 10000 + rate, v);
    }
  }

  /**
   * The other direction, from a gross amount to its net and back, drifts by at most one cent
   * for every rate up to 20000 basis points.
   */
  lemma VatDrift(gross: int, rate: int)
    requires rate <= 20000
    ensures DriftsByCent(gross, rate)
  {
    if gross > 0 && rate > 0 {
      var v := CalculateVat(gross, rate, true);
      NetNotNegative(gross, rate);
      var w := CalculateVat(gross - v, rate, false);
      VatBounds(gross, rate, true);
      VatBounds(gross - v, rate, false);
      NetTimes(gross, v, rate);
      DriftStep(gross * rate, v * rate, (gross - v) * rate, v, w, rate);
    }
  }

  lemma NetTimes(gross: int, v: int, rate: int)
    ensures (gross - v) * rate == gross * rate - v * rate
  {
  }

  lemma DriftStep(grossRate: int, vRate: int, netRate: int, v: int, w: int, rate: nat)
    requires rate <= 20000 && vRate == v * rate && netRate == grossRate - vRate
    requires 2 * grossRate - (10000 + rate) < 2 * ((10000 + rate) * v) <= 2 * grossRate + (10000 + rate)
    requires 2 * netRate - 10000 < 2 * (10000 * w) <= 2 * netRate + 10000
    ensures v - 1 <= w <= v + 1
  {
  }

  /** From a gross amount to its net and back: how the VAT drifts by at most one cent. */
  predicate DriftsByCent(gross: int, rate: int) {
    var v := CalculateVat(gross, rate, true);
    var w := CalculateVat(gross - v, rate, false);
    v - 1 <= w <= v + 1
  }

  /** For rates beyond 20000 the k-th amount of this form drifts by at least two cents, with k chosen by the excess. */
  lemma DriftWitness(excess: nat, k: nat)
    requires excess > 0 && k == 4999 / excess
    ensures !DriftsByCent(3 * k + 2, 20000 + excess)
  {
    var gross, rate := 3 * k + 2, 20000 + excess;
    WitnessVat(excess, k);
    var v := CalculateVat(gross, rate, true);
    VatBounds(gross - v, rate, false);
    ExcessBounds(excess, k);
    WitnessNet(excess, k);
    WitnessStep(excess, k, k * excess, (gross - v) * rate, v, CalculateVat(gross - v, rate, false));
  }

  lemma WitnessNet(excess: nat, k: nat)
    ensures (k + 1) * (20000 + excess) == 20000 * k + 20000 + k * excess + excess
    ensures k * (20000 + excess) == 20000 * k + k * excess
  {
  }

  lemma WitnessStep(excess: nat, k: nat, ks: nat, netRate: int, v: int, w: int)
    requires ks <= 4999 < ks + excess
    requires v == if 2 * ks + excess < 10000 then 2 * k + 1 else 2 * k + 2
    requires netRate == if v == 2 * k + 1 then 20000 * k + 20000 + ks + excess else 20000 * k + ks
    requires 2 * netRate - 10000 < 2 * (10000 * w) <= 2 * netRate + 10000
    ensures w < v - 1 || w > v + 1
  {
  }

  lemma ExcessBounds(excess: nat, k: nat)
    requires excess > 0 && k == 4999 / excess
    ensures k * excess <= 4999 < k * excess + excess
  {
    assert 4999 == k * excess + 4999 % excess;
  }

  /** The inclusive VAT of the witness amount. */
  lemma WitnessVat(excess: nat, k: nat)
    requires excess > 0 && k == 4999 / excess
    ensures CalculateVat(3 * k + 2, 20000 + excess, true)
            == if 2 * (k * excess) + excess < 10000 then 2 * k + 1 else 2 * k + 2
  {
    var d := 30000 + excess;
    var ks := k * excess;
    ExcessBounds(excess, k);
    assert (3 * k + 2) * (20000 + excess) == 60000 * k + 3 * ks + 40000 + 2 * excess;
    assert d * (2 * k + 1) == 60000 * k + 2 * ks + 30000 + excess;
    assert d * (2 * k + 2) == 60000 * k + 2 * ks + 60000 + 2 * excess;
    RoundHalfUpUnique((3 * k + 2) * (20000 + excess), d, if 2 * ks + excess < 10000 then 2 * k + 1 else 2 * k + 2);
  }

  /** Every amount drifts by at most one cent exactly for the rates up to 20000 basis points. */
  lemma VatDriftIff(rate: int)
    ensures (forall gross :: DriftsByCent(gross, rate)) <==> rate <= 20000
  {
    if rate <= 20000 {
      forall gross ensures DriftsByCent(gross, rate) {
        VatDrift(gross, rate);
      }
    } else {
      DriftWitness(rate - 20000, 4999 / (rate - 20000));
    }
  }

  /** Inclusive VAT never exceeds the amount it is taken from. */
  lemma NetNotNegative(amount: nat, rate: int)
    ensures CalculateVat(amount, rate, true) <= amount
  {
    if amount > 0 && rate > 0 {
      var d := 10000 + rate;
      VatBounds(amount, rate, true);
      assert d * amount == amount * rate + amount * 10000;
      ScaledOrder(d, CalculateVat(amount, rate, true), amount);
    }
  }

  /** VAT never falls as the amount grows. */
  lemma VatMonotone(a: int, b: int, rate: int, inclusive: bool)
    requires a <= b
    ensures CalculateVat(a, rate, inclusive) <= CalculateVat(b, rate, inclusive)
  {
    if a > 0 && rate > 0 {
      VatBounds(a, rate, inclusive);
      VatBounds(b, rate, inclusive);
      VatStep(a, b, rate, Divisor(rate, inclusive),
              CalculateVat(a, rate, inclusive), CalculateVat(b, rate, inclusive));
    }
  }

  lemma VatStep(a: nat, b: nat, rate: nat, d: nat, va: int, vb: int)
    requires a <= b && d > 0
    requires 2 * (d * va) <= 2 * (a * rate) + d
    requires 2 * (b * rate) - d < 2 * (d * vb)
    ensures va <= vb
  {
    assert b * rate == a * rate + (b - a) * rate;
    ScaledOrder(d, va, vb);
  }

  /** Neither does the net amount: the VAT grows no faster than the amount does. */
  lemma NetMonotone(a: int, b: int, rate: int)
    requires a <= b
    ensures a - CalculateVat(a, rate, true) <= b - CalculateVat(b, rate, true)
  {
    if rate > 0 && a > 0 {
      var va, vb := CalculateVat(a, rate, true), CalculateVat(b, rate, true);
      VatBounds(a, rate, true);
      VatBounds(b, rate, true);
      NetStep(a, b, rate, va, vb);
    } else if rate > 0 && b > 0 {
      NetNotNegative(b, rate);
    }
  }

  lemma NetStep(a: nat, b: nat, rate: nat, va: int, vb: int)
    requires a <= b && rate > 0
    requires 2 * (a * rate) - (10000 + rate) < 2 * ((10000 + rate) * va)
    requires 2 * ((10000 + rate) * vb) <= 2 * (b * rate) + (10000 + rate)
    ensures vb - va <= b - a
  {
    var d := 10000 + rate;
    assert d * (vb - va) == d * vb - d * va;
    assert d * (b - a) == (b * rate - a * rate) + 10000 * (b - a);
    ScaledOrder(d, vb - va, b - a);
  }

  function VatPerLine(amounts: seq<int>, rate: int, inclusive: bool): int {
    if amounts == [] then 0
    else VatPerLine(amounts[..|amounts| - 1], rate, inclusive)
         + CalculateVat(amounts[|amounts| - 1], rate, inclusive)
  }

  /** Accumulated rounding error of n rounded lines, scaled by twice the divisor. */
  lemma {:induction false} PerLineError(amounts: seq<int>, rate: nat, inclusive: bool)
    requires forall i :: 0 <= i < |amounts| ==> amounts[i] >= 0
    ensures Sum(amounts) >= 0
    ensures var d := Divisor(rate, inclusive);
            var exact := 2 * (Sum(amounts) * rate);
            var rounded := 2 * (d * VatPerLine(amounts, rate, inclusive));
            exact - |amounts| * d <= rounded <= exact + |amounts| * d
            && (amounts != [] ==> exact - |amounts| * d < rounded)
  {
    if amounts != [] {
      var n := |amounts| - 1;
      PerLineError(amounts[..n], rate, inclusive);
      VatBounds(amounts[n], rate, inclusive);
      AddError(n, Divisor(rate, inclusive), rate, Sum(amounts[..n]), amounts[n],
               VatPerLine(amounts[..n], rate, inclusive), CalculateVat(amounts[n], rate, inclusive));
    }
  }

  lemma AddError(n: nat, d: nat, rate: nat, total: nat, last: nat, vats: int, v: int)
    requires 2 * (total * rate) - n * d <= 2 * (d * vats) <= 2 * (total * rate) + n * d
    requires 2 * (last * rate) - d < 2 * (d * v) <= 2 * (last * rate) + d
    ensures 2 * ((total + last) * rate) - (n + 1) * d < 2 * (d * (vats + v))
            <= 2 * ((total + last) * rate) + (n + 1) * d
  {
  }

  /**
   * Rounding each of n lines instead of rounding once can be off by up to n/2 cents, and by no more:
   * the reason the engine rounds exactly once.
   */
  lemma PerLineVat(amounts: seq<int>, rate: int, inclusive: bool)
    requires forall i :: 0 <= i < |amounts| ==> amounts[i] >= 0
    ensures var diff := VatPerLine(amounts, rate, inclusive) - CalculateVat(Sum(amounts), rate, inclusive);
            -|amounts| <= 2 * diff <= |amounts|
  {
    if rate <= 0 {
      ZeroRate(amounts, rate, inclusive);
    } else if amounts != [] {
      PerLineError(amounts, rate, inclusive);
      VatBounds(Sum(amounts), rate, inclusive);
      ErrorBound(|amounts|, Divisor(rate, inclusive), 2 * (Sum(amounts) * rate),
                 VatPerLine(amounts, rate, inclusive), CalculateVat(Sum(amounts), rate, inclusive));
    }
  }

  lemma ErrorBound(n: int, d: nat, exact: int, perLine: int, once: int)
    requires d > 0
    requires exact - n * d < 2 * (d * perLine) <= exact + n * d
    requires exact - d < 2 * (d * once) <= exact + d
    ensures -n <= 2 * (perLine - once) <= n
  {
    var twice := 2 * (perLine - once);
    Distribute(d, perLine, -once);
    Distribute(d, perLine - once, perLine - once);
    Distribute(d, n, -n);
    ScaledOrder(d, twice, n);
    ScaledOrder(d, -n, twice);
  }

  lemma {:induction false} ZeroRate(amounts: seq<int>, rate: int, inclusive: bool)
    requires rate <= 0
    ensures VatPerLine(amounts, rate, inclusive) == 0
  {
    if amounts != [] {
      ZeroRate(amounts[..|amounts| - 1], rate, inclusive);
    }
  }

  /** With inclusive prices the total is the net amount and the VAT is inside it; otherwise the VAT comes on top. */
  lemma ApplyVatIs(net: int, rate: int, inclusive: bool)
    ensures var (total, vat) := ApplyVat(net, rate, inclusive);
            && vat == CalculateVat(net, rate, inclusive)
            && (inclusive ==> total == net)
            && (!inclusive ==> total == net + vat)
  {
  }

  /** The breakdown of a line: its parts, the unit price, and unit price times quantity. */
  lemma LineItemIs(base: int, options: seq<SelectedOption>, addOns: seq<AddOn>, quantity: int)
    ensures var b := LineItem(base, options, addOns, quantity);
            && b.basePriceCents == base && b.quantity == quantity
            && b.optionAdjustmentCents == OptionAdjustment(options) && b.addOnTotalCents == AddOnTotal(addOns)
            && b.unitPriceCents == Max(0, base + b.optionAdjustmentCents + b.addOnTotalCents)
            && b.lineTotalCents == b.unitPriceCents * quantity
  {
  }
}
