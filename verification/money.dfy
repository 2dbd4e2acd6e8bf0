/** Fixed-point money: exact decimals between roundings, whole millionths once stored. */
module Money {

  datatype Option<+T> = None | Some(value: T)

  /** A quantity, price or rate before it is quantised. */
  type Decimal = real

  /** A stored amount: a whole number of millionths. */
  type Micro = int

  const CENT: Micro := 10_000

  /** The nearest integer, ties to the even one. */
  function RoundHalfEven(x: real): (n: int)
    ensures -0.5 <= n as real - x <= 0.5
    ensures (n as real - x == 0.5 || x - n as real == 0.5) ==> n % 2 == 0
  {
    var low := x.Floor;
    var part := x - low as real;
    if part < 0.5 || (part == 0.5 && low % 2 == 0) then low else low + 1
  }

  lemma RoundIsMonotone(x: real, y: real)
    requires x <= y
    ensures RoundHalfEven(x) <= RoundHalfEven(y)
  {
  }

  function Quantize(x: Decimal): Micro {
    RoundHalfEven(x * 1000000.0)
  }

  /** What a column keeps of a number: six decimals, halves away from zero. */
  function StoredMicro(x: Decimal): Micro {
    if x >= 0.0 then (x * 1000000.0 + 0.5).Floor else -(-x * 1000000.0 + 0.5).Floor
  }

  function Stored(x: Decimal): Decimal { StoredMicro(x) as real / 1000000.0 }

  /** The column keeps the number as it is. */
  predicate AtScale(x: Decimal) { Stored(x) == x }

  lemma StoredOfScale(x: Decimal)
    requires AtScale(x)
    ensures Stored(x) == x
  {}

  /** The nearest millionth, ties away from zero. */
  lemma StoredIsClose(x: Decimal)
    ensures -0.5 <= (Stored(x) - x) * 1000000.0 <= 0.5
    ensures x >= 0.0 ==> Stored(x) >= 0.0 && (Stored(x) - x) * 1000000.0 != -0.5
    ensures x <= 0.0 ==> Stored(x) <= 0.0 && (Stored(x) - x) * 1000000.0 != 0.5
  {}

  lemma WholeIsStored(n: int)
    ensures AtScale(n as real / 1000000.0)
  {
    var scaled := n as real / 1000000.0 * 1000000.0;
    assert scaled == n as real;
    if n >= 0 { assert (scaled + 0.5).Floor == n; } else { assert (-scaled + 0.5).Floor == -n; }
  }

  lemma StoredIsAtScale(x: Decimal)
    ensures AtScale(Stored(x))
  {
    WholeIsStored(StoredMicro(x));
  }

  lemma StoredIsMonotone(x: Decimal, y: Decimal)
    requires x <= y
    ensures Stored(x) <= Stored(y)
  {
    if x >= 0.0 {
      FloorGrows(x * 1000000.0 + 0.5, y * 1000000.0 + 0.5);
    } else if y < 0.0 {
      FloorGrows(-y * 1000000.0 + 0.5, -x * 1000000.0 + 0.5);
    } else {
      assert StoredMicro(x) <= 0 <= StoredMicro(y);
    }
  }

  lemma FloorGrows(a: real, b: real)
    requires a <= b
    ensures a.Floor <= b.Floor
  {}

  lemma StoredIsOdd(x: Decimal)
    ensures Stored(-x) == -Stored(x)
  {}

  lemma ScaleIsClosed(a: Decimal, b: Decimal)
    requires AtScale(a) && AtScale(b)
    ensures AtScale(a + b) && AtScale(a - b)
  {
    WholeIsStored(StoredMicro(a) + StoredMicro(b));
    WholeIsStored(StoredMicro(a) - StoredMicro(b));
    assert a + b == (StoredMicro(a) + StoredMicro(b)) as real / 1000000.0;
    assert a - b == (StoredMicro(a) - StoredMicro(b)) as real / 1000000.0;
  }

  /** A stored amount passes through the rounding of a sum. */
  lemma StoredShift(a: Decimal, x: Decimal)
    requires AtScale(a) && a >= 0.0 && x >= 0.0
    ensures Stored(a + x) == a + Stored(x)
  {
    var n := StoredMicro(a);
    assert a * 1000000.0 == n as real;
    assert ((a + x) * 1000000.0 + 0.5).Floor == n + (x * 1000000.0 + 0.5).Floor;
  }

  /** What a customer is asked for: whole cents, ties away from zero. */
  function Payable(total: Micro): (r: Micro)
    ensures r % CENT == 0
    ensures -CENT <= 2 * (r - total) <= CENT
    ensures 0 <= total ==> 2 * (total - r) != CENT
    ensures total <= 0 ==> 2 * (r - total) != CENT
  {
    if total >= 0 then (total + CENT / 2) / CENT * CENT
    else -((-total + CENT / 2) / CENT * CENT)
  }

  /** An amount that is within half a cent of a whole-cent figure is charged as that figure. */
  lemma PayableSnaps(total: Micro, whole: Micro)
    requires whole % CENT == 0
    requires -CENT < 2 * (total - whole) < CENT
    ensures Payable(total) == whole
  {
    var r := Payable(total);
    assert -2 * CENT < 2 * (r - whole) < 2 * CENT;
    assert (r - whole) % CENT == 0;
  }

  datatype Amounts = Amounts(subtotal: Micro, discount: Micro, tax: Micro, total: Micro)

  /** The price snapshot behind one amount: per unit of whatever quantity it is applied to. */
  datatype Tariff = Tariff(price: Decimal, surcharge: Decimal, discountRate: Decimal, taxRate: Decimal, inclusive: bool)

  /** The bounds the request schema and the columns put on prices and rates. */
  ghost predicate Admissible(t: Tariff) {
    0.0 <= t.price && 0.0 <= t.surcharge && 0.0 <= t.discountRate <= 100.0 && 0.0 <= t.taxRate
  }

  function Subtotal(t: Tariff, quantity: Decimal): Decimal { quantity * t.price + quantity * t.surcharge }

  function Discount(t: Tariff, quantity: Decimal): Decimal { quantity * t.price * t.discountRate / 100.0 }

  /** What is left of a price after its line discount, plus the supplement, which is never discounted. */
  function Remaining(t: Tariff, quantity: Decimal): Decimal {
    quantity * t.price - quantity * t.price * t.discountRate / 100.0 + quantity * t.surcharge
  }

  function WithTax(t: Tariff, remaining: Decimal): Decimal {
    if t.inclusive then remaining else remaining + remaining * t.taxRate / 100.0
  }

  function TaxIn(t: Tariff, remaining: Decimal): Decimal
    requires t.inclusive ==> t.taxRate != -100.0
  {
    if t.inclusive then remaining - remaining / (1.0 + t.taxRate / 100.0) else remaining * t.taxRate / 100.0
  }

  function ComputeAmounts(t: Tariff, quantity: Decimal): Amounts
    requires t.inclusive ==> t.taxRate != -100.0
  {
    var remaining := Remaining(t, quantity);
    Amounts(Quantize(Subtotal(t, quantity)),
            Quantize(Discount(t, quantity)),
            Quantize(TaxIn(t, remaining)),
            Quantize(WithTax(t, remaining)))
  }

  /** What one unit costs the customer, exactly. */
  function UnitCharge(t: Tariff): Decimal {
    WithTax(t, Remaining(t, 1.0))
  }

  lemma UnitChargeIsNonNegative(t: Tariff)
    requires Admissible(t)
    ensures 0.0 <= UnitCharge(t)
  {
    assert t.price * t.discountRate <= t.price * 100.0;
    var remaining := Remaining(t, 1.0);
    assert 0.0 <= remaining;
    assert 0.0 <= remaining * t.taxRate;
  }

  lemma RemainingIsLinear(t: Tariff, quantity: Decimal)
    ensures Remaining(t, quantity) == quantity * Remaining(t, 1.0)
  {
    assert quantity * t.price * t.discountRate == quantity * (t.price * t.discountRate);
  }

  lemma WithTaxIsLinear(t: Tariff, quantity: Decimal, remaining: Decimal)
    ensures WithTax(t, quantity * remaining) == quantity * WithTax(t, remaining)
  {
    assert (quantity * remaining) * t.taxRate == quantity * (remaining * t.taxRate);
  }

  /** Pricing by a larger unit: its price and supplement are that many times larger, and so is its charge. */
  lemma UnitChargeScales(t: Tariff, larger: Tariff, factor: Decimal)
    requires larger == t.(price := larger.price, surcharge := larger.surcharge)
    requires larger.price == t.price * factor && larger.surcharge == t.surcharge * factor
    ensures UnitCharge(larger) == factor * UnitCharge(t)
  {
    assert larger.price * t.discountRate == factor * (t.price * t.discountRate);
    assert Remaining(larger, 1.0) == factor * Remaining(t, 1.0);
    hide Remaining;
    WithTaxIsLinear(t, factor, Remaining(t, 1.0));
    assert WithTax(larger, factor * Remaining(t, 1.0)) == WithTax(t, factor * Remaining(t, 1.0));
  }

  /** The total is linear in the quantity up to one rounding at the storage scale. */
  lemma TotalIsLinear(t: Tariff, quantity: Decimal) returns (exact: Decimal)
    requires t.inclusive ==> t.taxRate != -100.0
    ensures exact == quantity * UnitCharge(t)
    ensures ComputeAmounts(t, quantity).total == Quantize(exact)
  {
    hide Quantize;
    exact := WithTax(t, Remaining(t, quantity));
    assert exact == quantity * WithTax(t, Remaining(t, 1.0)) by {
      hide WithTax, Remaining;
      RemainingIsLinear(t, quantity);
      WithTaxIsLinear(t, quantity, Remaining(t, 1.0));
    }
  }

  lemma QuantizeIsClose(x: Decimal)
    ensures -0.5 <= Quantize(x) as real - x * 1000000.0 <= 0.5
  {}

  /** The exact figures behind the four amounts, in the price's own terms: the goods, the discount on them, the supplement,
      which is never discounted, and the tax, added to what remains or contained in it. */
  datatype Breakdown = Breakdown(goods: Decimal, cut: Decimal, extra: Decimal, taxRate: Decimal, inclusive: bool)

  ghost function Base(e: Breakdown): Decimal { e.goods - e.cut + e.extra }

  ghost function TaxOf(e: Breakdown): Decimal
    requires e.taxRate >= 0.0
  {
    if e.inclusive then Base(e) - Base(e) / (1.0 + e.taxRate / 100.0) else Base(e) * (e.taxRate / 100.0)
  }

  ghost function Due(e: Breakdown): Decimal
    requires e.taxRate >= 0.0
  { if e.inclusive then Base(e) else Base(e) + TaxOf(e) }

  /** Each amount is its exact figure, rounded once. */
  ghost predicate Rounds(a: Amounts, e: Breakdown)
    requires e.taxRate >= 0.0
  {
    && a.subtotal == Quantize(e.goods + e.extra) && a.discount == Quantize(e.cut)
    && a.tax == Quantize(TaxOf(e)) && a.total == Quantize(Due(e))
  }

  lemma AmountsSpelledOut(t: Tariff, quantity: Decimal) returns (e: Breakdown)
    requires t.taxRate >= 0.0
    ensures e == Breakdown(quantity * t.price, quantity * t.price * t.discountRate / 100.0, quantity * t.surcharge, t.taxRate,
                           t.inclusive)
    ensures Rounds(ComputeAmounts(t, quantity), e)
  {
    hide Quantize, TaxIn, WithTax, TaxOf, Due;
    var goods, extra := quantity * t.price, quantity * t.surcharge;
    var cut := goods * t.discountRate / 100.0;
    e := Breakdown(goods, cut, extra, t.taxRate, t.inclusive);
    assert Remaining(t, quantity) == Base(e);
    TaxSpelledOut(t, e);
    assert Subtotal(t, quantity) == goods + extra && Discount(t, quantity) == cut;
  }

  lemma TaxSpelledOut(t: Tariff, e: Breakdown)
    requires t.taxRate >= 0.0 && e.taxRate == t.taxRate && e.inclusive == t.inclusive
    ensures TaxIn(t, Base(e)) == TaxOf(e) && WithTax(t, Base(e)) == Due(e)
  {
    RateOf(Base(e), t.taxRate);
  }

  lemma RateOf(base: Decimal, taxRate: Decimal)
    ensures base * taxRate / 100.0 == base * (taxRate / 100.0)
  {}

  lemma GrossUp(base: Decimal, growth: Decimal)
    requires growth >= 1.0
    ensures base / growth * growth == base
  {}

  lemma WidenedByOne(d: Decimal, factor: Decimal)
    requires -1.0 <= d <= 1.0 && factor >= 0.0
    ensures -factor <= d * factor <= factor
  {}

  lemma Difference(left: Decimal, base: Decimal, factor: Decimal)
    ensures (left - base * 1000000.0) * factor == left * factor - base * factor * 1000000.0
  {}

  lemma ScaledMissOf(left: Decimal, base: Decimal, factor: Decimal, miss: Decimal, scaledMiss: Decimal, scaledLeft: Decimal,
                     scaledBase: Decimal)
    requires factor >= 0.0 && miss == left - base * 1000000.0 && -1.0 <= miss <= 1.0 && scaledMiss == miss * factor
    requires scaledLeft == left * factor && scaledBase == base * factor
    ensures -factor <= scaledLeft - scaledBase * 1000000.0 <= factor
  {
    Difference(left, base, factor);
    WidenedByOne(miss, factor);
    assert scaledMiss == scaledLeft - scaledBase * 1000000.0;
  }

  /** An amount within a millionth of a figure, times a factor, is within that factor of the figure's product. */
  lemma ScaledMiss(left: Decimal, base: Decimal, factor: Decimal, scaledLeft: Decimal, scaledBase: Decimal)
    requires factor >= 0.0 && -1.0 <= left - base * 1000000.0 <= 1.0
    requires scaledLeft == left * factor && scaledBase == base * factor
    ensures -factor <= scaledLeft - scaledBase * 1000000.0 <= factor
  {
    var miss := left - base * 1000000.0;
    ScaledMissOf(left, base, factor, miss, miss * factor, scaledLeft, scaledBase);
  }

  /** The four amounts of a line fit together within their own roundings: what is left after the discount is the total,
      with the tax added when prices are net; the tax is the rate of that, or what the rate makes of the net part. */
  ghost predicate Fit(a: Amounts, rate: Decimal, inclusive: bool) {
    var left, net := a.subtotal - a.discount, a.total - a.tax;
    if inclusive then
      && -1 <= a.total - left <= 1
      && -(1.5 + rate) <= net as real * (1.0 + rate) - a.total as real <= 1.5 + rate
    else
      && -2 <= a.total - (left + a.tax) <= 2
      && -(0.5 + rate) <= a.tax as real - left as real * rate <= 0.5 + rate
  }

  lemma AmountsFit(t: Tariff, quantity: Decimal)
    requires t.taxRate >= 0.0
    ensures Fit(ComputeAmounts(t, quantity), t.taxRate / 100.0, t.inclusive)
  {
    hide ComputeAmounts, Fit, Rounds;
    var e := AmountsSpelledOut(t, quantity);
    FitOf(ComputeAmounts(t, quantity), e);
  }

  lemma FitOf(a: Amounts, e: Breakdown)
    requires e.taxRate >= 0.0 && Rounds(a, e)
    ensures Fit(a, e.taxRate / 100.0, e.inclusive)
  {
    if e.inclusive { NetFits(a, e); } else { TaxFits(a, e); }
    TotalFits(a, e);
  }

  lemma TotalFits(a: Amounts, e: Breakdown)
    requires e.taxRate >= 0.0 && Rounds(a, e)
    ensures var left := a.subtotal - a.discount;
            if e.inclusive then -1 <= a.total - left <= 1 else -2 <= a.total - (left + a.tax) <= 2
  {
    hide Quantize, TaxOf;
    QuantizeIsClose(e.goods + e.extra);
    QuantizeIsClose(e.cut);
    QuantizeIsClose(TaxOf(e));
    QuantizeIsClose(Due(e));
  }

  lemma NetFits(a: Amounts, e: Breakdown)
    requires e.inclusive && e.taxRate >= 0.0 && Rounds(a, e)
    ensures var rate := e.taxRate / 100.0;
            -(1.5 + rate) <= (a.total - a.tax) as real * (1.0 + rate) - a.total as real <= 1.5 + rate
  {
    hide Quantize;
    var growth := 1.0 + e.taxRate / 100.0;
    var part, net := Base(e) / growth, (a.total - a.tax) as real;
    QuantizeIsClose(TaxOf(e));
    QuantizeIsClose(Due(e));
    GrossUp(Base(e), growth);
    assert -1.0 <= net - part * 1000000.0 <= 1.0;
    ScaledMiss(net, part, growth, net * growth, Base(e));
  }

  lemma TaxFits(a: Amounts, e: Breakdown)
    requires !e.inclusive && e.taxRate >= 0.0 && Rounds(a, e)
    ensures var rate := e.taxRate / 100.0;
            -(0.5 + rate) <= a.tax as real - (a.subtotal - a.discount) as real * rate <= 0.5 + rate
  {
    hide Quantize;
    var rate, left, base := e.taxRate / 100.0, (a.subtotal - a.discount) as real, Base(e);
    QuantizeIsClose(e.goods + e.extra);
    QuantizeIsClose(e.cut);
    QuantizeIsClose(TaxOf(e));
    assert -1.0 <= left - base * 1000000.0 <= 1.0;
    ScaledMiss(left, base, rate, left * rate, TaxOf(e));
  }

  /** The charges of two breakdowns that differ by what was added before tax. */
  lemma DueOfMore(e: Breakdown, f: Breakdown, added: Decimal)
    requires e.taxRate >= 0.0 && f == e.(extra := e.extra + added)
    ensures Due(f) == Due(e) + if e.inclusive then added else added * (1.0 + e.taxRate / 100.0)
  {
    if !e.inclusive { TaxOfMore(Base(e), added, e.taxRate / 100.0); }
  }

  lemma QuantizedRise(x: Decimal, y: Decimal, rise: Decimal)
    requires y == x + rise
    ensures -1.0 <= (Quantize(y) - Quantize(x)) as real - rise * 1000000.0 <= 1.0
  {
    QuantizeIsClose(x);
    QuantizeIsClose(y);
  }

  /** A supplement is added in full: raising it by `rise` a unit leaves the discount alone and raises what is charged
      before tax by exactly that times the quantity, whatever the discount, up to the roundings. */
  ghost predicate AddedInFull(a: Amounts, b: Amounts, added: Decimal, rate: Decimal, inclusive: bool) {
    && b.discount == a.discount
    && -1.0 <= (b.subtotal - a.subtotal) as real - added * 1000000.0 <= 1.0
    && -1.0 <= (b.total - a.total) as real - (if inclusive then added else added * (1.0 + rate)) * 1000000.0 <= 1.0
  }

  lemma MoreIsAddedInFull(a: Amounts, b: Amounts, e: Breakdown, f: Breakdown, added: Decimal)
    requires e.taxRate >= 0.0 && f == e.(extra := e.extra + added) && Rounds(a, e) && Rounds(b, f)
    ensures AddedInFull(a, b, added, e.taxRate / 100.0, e.inclusive)
  {
    hide Quantize, TaxOf, Due, Base;
    var more := if e.inclusive then added else added * (1.0 + e.taxRate / 100.0);
    DueOfMore(e, f, added);
    QuantizedRise(e.goods + e.extra, f.goods + f.extra, added);
    QuantizedRise(Due(e), Due(f), more);
  }

  lemma SupplementIsNotDiscounted(t: Tariff, rise: Decimal, quantity: Decimal)
    requires t.taxRate >= 0.0
    ensures AddedInFull(ComputeAmounts(t, quantity), ComputeAmounts(t.(surcharge := t.surcharge + rise), quantity),
                        quantity * rise, t.taxRate / 100.0, t.inclusive)
  {
    hide ComputeAmounts, AddedInFull, Rounds;
    var u := t.(surcharge := t.surcharge + rise);
    var e := AmountsSpelledOut(t, quantity);
    var f := AmountsSpelledOut(u, quantity);
    MoreSupplement(quantity, t.surcharge, rise);
    MoreIsAddedInFull(ComputeAmounts(t, quantity), ComputeAmounts(u, quantity), e, f, quantity * rise);
  }

  lemma MoreSupplement(quantity: Decimal, surcharge: Decimal, rise: Decimal)
    ensures quantity * (surcharge + rise) == quantity * surcharge + quantity * rise
  {}

  lemma TaxOfMore(base: Decimal, added: Decimal, rate: Decimal)
    ensures base + added + (base + added) * rate == base + base * rate + added * (1.0 + rate)
  {}
}
