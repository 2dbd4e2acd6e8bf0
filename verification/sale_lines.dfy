/** The price snapshot of a sale line, and the money any part of it is worth. */
module SaleLines {
  import opened Money

  datatype LineSnapshot = LineSnapshot(
    product: int,
    quantityPackages: Decimal,
    packageFactor: Decimal,
    quantityBase: Decimal,
    unitPrice: Decimal,
    packagePrice: Option<Decimal>,
    surcharge: Decimal,
    discountRate: Decimal,
    taxRate: Decimal,
    tracksStock: bool,
    trackLots: bool)

  /** What the request schema and the column constraints let into a line. */
  ghost predicate Sellable(line: LineSnapshot) {
    && 0.0 < line.packageFactor && 0.0 <= line.quantityPackages
    && 0.0 <= line.quantityBase && 0.0 <= line.unitPrice && (line.packagePrice.Some? ==> 0.0 <= line.packagePrice.value)
    && 0.0 <= line.surcharge && 0.0 <= line.discountRate <= 100.0 && 0.0 <= line.taxRate
  }

  type SaleLine = line: LineSnapshot | Sellable(line)
    witness LineSnapshot(0, 0.0, 1.0, 0.0, 0.0, None, 0.0, 0.0, 0.0, false, false)

  /** The base quantity is the package quantity converted at the snapshotted factor. */
  ghost predicate Packaged(line: SaleLine) {
    line.quantityBase == line.quantityPackages * line.packageFactor
  }

  function TariffOf(line: SaleLine, inclusive: bool): (t: Tariff)
    ensures Admissible(t)
  {
    if line.packagePrice.Some? then
      Tariff(line.packagePrice.value, line.surcharge * line.packageFactor, line.discountRate, line.taxRate, inclusive)
    else
      Tariff(line.unitPrice, line.surcharge, line.discountRate, line.taxRate, inclusive)
  }

  /** A presentation with its own price is valued by the package, anything else by the base unit. */
  function LineTotals(line: SaleLine, inclusive: bool): Amounts {
    ComputeAmounts(TariffOf(line, inclusive),
                   if line.packagePrice.Some? then line.quantityPackages else line.quantityBase)
  }

  /** The line totals of a sale, added up before they are rounded to cents. */
  function RawTotal(lines: seq<SaleLine>, inclusive: bool): Micro {
    if lines == [] then 0
    else RawTotal(lines[..|lines| - 1], inclusive) + LineTotals(lines[|lines| - 1], inclusive).total
  }

  /** What a sale is charged: cents, rounded once. */
  function ChargeOf(lines: seq<SaleLine>, inclusive: bool): Micro { Payable(RawTotal(lines, inclusive)) }

  lemma {:induction false} RawTotalFromFront(lines: seq<SaleLine>, inclusive: bool)
    requires lines != []
    ensures RawTotal(lines, inclusive) == LineTotals(lines[0], inclusive).total + RawTotal(lines[1..], inclusive)
  {
    hide LineTotals;
    var last := |lines| - 1;
    if last == 0 {
      assert lines[..0] == [] && lines[1..] == [];
    } else {
      RawTotalFromFront(lines[..last], inclusive);
      assert lines[1..][..last - 1] == lines[..last][1..];
    }
  }

  function PricedQuantity(line: SaleLine, quantityBase: Decimal): Decimal {
    if line.packagePrice.Some? then quantityBase / line.packageFactor else quantityBase
  }

  /** The value of any cumulative base quantity of the line. */
  function ReturnAmount(line: SaleLine, quantityBase: Decimal, inclusive: bool): Micro {
    ComputeAmounts(TariffOf(line, inclusive), PricedQuantity(line, quantityBase)).total
  }

  lemma PricedQuantityGrows(line: SaleLine, less: Decimal, more: Decimal)
    requires less <= more
    ensures PricedQuantity(line, less) <= PricedQuantity(line, more)
    ensures PricedQuantity(line, 0.0) == 0.0
  {}

  lemma ScalingGrows(a: Decimal, b: Decimal, factor: Decimal)
    requires a <= b && 0.0 <= factor
    ensures a * factor <= b * factor
  {}

  /** Refunding more is never worth less, and refunding nothing is worth nothing. */
  lemma ReturnAmountGrows(line: SaleLine, less: Decimal, more: Decimal, inclusive: bool)
    requires less <= more
    ensures ReturnAmount(line, less, inclusive) <= ReturnAmount(line, more, inclusive)
    ensures ReturnAmount(line, 0.0, inclusive) == 0
  {
    hide ComputeAmounts, UnitCharge, RoundHalfEven, TariffOf, Sellable;
    var t := TariffOf(line, inclusive);
    UnitChargeIsNonNegative(t);
    PricedQuantityGrows(line, less, more);
    var low := TotalIsLinear(t, PricedQuantity(line, less));
    var high := TotalIsLinear(t, PricedQuantity(line, more));
    var nothing := TotalIsLinear(t, PricedQuantity(line, 0.0));
    ScalingGrows(PricedQuantity(line, less), PricedQuantity(line, more), UnitCharge(t));
    RoundIsMonotone(low * 1000000.0, high * 1000000.0);
    assert nothing == 0.0;
  }

  /** Refunding the whole line gives back exactly the line total that was charged. */
  lemma FullRefundIsTheCharge(line: SaleLine, inclusive: bool)
    requires Packaged(line)
    ensures ReturnAmount(line, line.quantityBase, inclusive) == LineTotals(line, inclusive).total
  {
    hide ComputeAmounts;
    assert line.quantityPackages * line.packageFactor / line.packageFactor == line.quantityPackages;
  }

  /** A line's exact figures in its own terms: its packages at their own price, or its base units at the unit price; the
      discount on that; and the supplement of every base unit. */
  ghost function BreakdownOf(line: SaleLine, inclusive: bool): Breakdown {
    var goods := if line.packagePrice.Some? then line.quantityPackages * line.packagePrice.value
                 else line.quantityBase * line.unitPrice;
    Breakdown(goods, goods * line.discountRate / 100.0, line.quantityBase * line.surcharge, line.taxRate, inclusive)
  }

  lemma LineSpelledOut(line: SaleLine, inclusive: bool)
    requires Packaged(line)
    ensures Rounds(LineTotals(line, inclusive), BreakdownOf(line, inclusive))
  {
    hide Quantize, ComputeAmounts, Rounds;
    var quantity := if line.packagePrice.Some? then line.quantityPackages else line.quantityBase;
    var e := AmountsSpelledOut(TariffOf(line, inclusive), quantity);
    if line.packagePrice.Some? { SupplementPerUnit(line.quantityPackages, line.surcharge, line.packageFactor); }
    assert e == BreakdownOf(line, inclusive);
  }

  lemma SupplementPerUnit(packages: Decimal, surcharge: Decimal, factor: Decimal)
    ensures packages * (surcharge * factor) == packages * factor * surcharge
  {}

  /** A part of a line is worth its share of what the line was charged, to within a millionth. */
  lemma RefundIsTheShare(line: SaleLine, quantityBase: Decimal, inclusive: bool)
    requires Packaged(line) && 0.0 <= quantityBase <= line.quantityBase && 0.0 < line.quantityBase
    ensures -1.0 <= ReturnAmount(line, quantityBase, inclusive) as real
                    - quantityBase / line.quantityBase * LineTotals(line, inclusive).total as real <= 1.0
  {
    hide ComputeAmounts, UnitCharge, Quantize, TariffOf, Sellable, LineTotals;
    FullRefundIsTheCharge(line, inclusive);
    var t := TariffOf(line, inclusive);
    var q, all := PricedQuantity(line, quantityBase), PricedQuantity(line, line.quantityBase);
    var part := TotalIsLinear(t, q);
    var whole := TotalIsLinear(t, all);
    var share := quantityBase / line.quantityBase;
    QuantizeIsClose(part);
    QuantizeIsClose(whole);
    PartIsShare(line, quantityBase);
    hide PricedQuantity;
    Shared(q, all, share, UnitCharge(t), part, whole);
    ShareOfRounded(share, part, whole, ReturnAmount(line, quantityBase, inclusive) as real,
                   LineTotals(line, inclusive).total as real, share * LineTotals(line, inclusive).total as real);
  }

  lemma ShareOfRounded(share: Decimal, part: Decimal, whole: Decimal, paid: Decimal, charged: Decimal, due: Decimal)
    requires 0.0 <= share <= 1.0 && part == share * whole && due == share * charged
    requires -0.5 <= paid - part * 1000000.0 <= 0.5 && -0.5 <= charged - whole * 1000000.0 <= 0.5
    ensures -1.0 <= paid - due <= 1.0
  {
    Splits(share, charged, whole * 1000000.0);
    Commuted(share, whole);
    ShareOfMiss(share, charged - whole * 1000000.0, due - part * 1000000.0);
  }

  lemma Commuted(share: Decimal, whole: Decimal)
    ensures share * (whole * 1000000.0) == share * whole * 1000000.0
  {}

  lemma PartIsShare(line: SaleLine, quantityBase: Decimal)
    requires 0.0 <= quantityBase <= line.quantityBase && 0.0 < line.quantityBase
    ensures PricedQuantity(line, quantityBase) == quantityBase / line.quantityBase * PricedQuantity(line, line.quantityBase)
    ensures 0.0 <= quantityBase / line.quantityBase <= 1.0
  {
    Ratio(quantityBase, line.quantityBase);
    Quotient(quantityBase / line.quantityBase, line.quantityBase, line.packageFactor);
  }

  lemma Ratio(a: Decimal, b: Decimal)
    requires 0.0 <= a <= b && 0.0 < b
    ensures 0.0 <= a / b <= 1.0 && a / b * b == a
  {}

  lemma Quotient(share: Decimal, all: Decimal, factor: Decimal)
    requires factor > 0.0
    ensures share * all / factor == share * (all / factor)
  {
    assert all / factor * factor == all;
    assert share * (all / factor) * factor == share * (all / factor * factor);
  }

  lemma Shared(q: Decimal, all: Decimal, share: Decimal, unit: Decimal, part: Decimal, whole: Decimal)
    requires q == share * all && part == q * unit && whole == all * unit
    ensures part == share * whole
  {
    assert share * all * unit == share * (all * unit);
  }

  lemma Splits(share: Decimal, a: Decimal, b: Decimal)
    ensures share * (a - b) == share * a - share * b
  {}

  lemma ShareOfMiss(share: Decimal, miss: Decimal, product: Decimal)
    requires 0.0 <= share <= 1.0 && -0.5 <= miss <= 0.5 && product == share * miss
    ensures -0.5 <= product <= 0.5
  {
    NotNegative(share, 0.5 - miss);
    NotNegative(share, 0.5 + miss);
    Splits(share, 0.5, miss);
    Splits(share, 0.5, -miss);
  }

  lemma NotNegative(a: Decimal, b: Decimal)
    requires a >= 0.0 && b >= 0.0
    ensures a * b >= 0.0
  {}
}
