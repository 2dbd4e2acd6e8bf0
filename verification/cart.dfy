/** A draft's lines: scanning again adds to a line that coincides, and open-price buttons. */
module Cart {
  import opened Money
  import opened SaleLines
  import opened Sums

  /** `caption` stands for the SKU, name, category, cost and supplement label snapshotted with the line. */
  datatype CartLine = CartLine(package: int, caption: int, snapshot: SaleLine)

  /** A line as its columns keep it; its other numbers come from columns or are rounded before they are stored. */
  function StoredLine(line: CartLine): CartLine {
    var s := line.snapshot;
    StoredIsClose(s.unitPrice);
    StoredRate(s.discountRate);
    line.(snapshot := s.(unitPrice := Stored(s.unitPrice), discountRate := Stored(s.discountRate)))
  }

  lemma StoredRate(rate: Decimal)
    requires 0.0 <= rate <= 100.0
    ensures 0.0 <= Stored(rate) <= 100.0
  {
    StoredIsClose(rate);
    StoredIsMonotone(rate, 100.0);
    WholeIsStored(100_000_000);
  }

  /** What has to coincide for a new line to be added to an old one. A presentation's own price is not compared. */
  predicate Mergeable(kept: CartLine, line: CartLine) {
    var a, b := kept.snapshot, line.snapshot;
    && a.product == b.product && kept.package == line.package && a.unitPrice == b.unitPrice
    && a.discountRate == b.discountRate && a.taxRate == b.taxRate && kept.caption == line.caption
    && a.tracksStock == b.tracksStock && a.trackLots == b.trackLots && a.surcharge == b.surcharge
  }

  function Enlarged(kept: CartLine, line: CartLine): CartLine {
    var a, b := kept.snapshot, line.snapshot;
    kept.(snapshot := a.(quantityPackages := a.quantityPackages + b.quantityPackages,
                         quantityBase := a.quantityBase + b.quantityBase))
  }

  function AddOrMerge(lines: seq<CartLine>, line: CartLine): seq<CartLine> {
    if lines == [] then [StoredLine(line)]
    else if Mergeable(lines[0], line) then [Enlarged(lines[0], line)] + lines[1..]
    else [lines[0]] + AddOrMerge(lines[1..], line)
  }

  class DraftSale {
    var lines: seq<CartLine>

    constructor ()
      ensures lines == []
    {
      lines := [];
    }

    method Add(line: CartLine)
      modifies this
      ensures lines == AddOrMerge(old(lines), line)
      ensures Added(old(lines), line, lines) && AddsUp(old(lines), line, lines) && |lines| <= |old(lines)| + 1
    {
      hide Added, AddsUp, Mergeable, StoredLine, Enlarged;
      AddedToItsOwn(lines, line);
      for i := 0 to |lines|
        invariant lines == old(lines)
        invariant AddOrMerge(lines, line) == lines[..i] + AddOrMerge(lines[i..], line)
      {
        if Mergeable(lines[i], line) {
          lines := lines[i := Enlarged(lines[i], line)];
          return;
        }
      }
      lines := lines + [StoredLine(line)];
    }

    /** An open-price button is sold as one base unit at the total the cashier enters; nothing else takes one. */
    method AddLine(offer: CartLine, openPrice: bool, isBase: bool, total: Option<Decimal>, inclusive: bool)
      returns (error: Option<CartError>)
      requires total.Some? ==> 0.0 <= total.value
      modifies this
      ensures error == Refusal(offer, openPrice, isBase, total)
      ensures lines == if error.Some? then old(lines)
                       else AddOrMerge(old(lines), if openPrice then Priced(offer, total.value, inclusive) else offer)
    {
      if openPrice {
        if total.None? { return Some(TotalRequired); }
        if !isBase || offer.snapshot.quantityPackages != 1.0 { return Some(NotOneBaseUnit); }
        Add(Priced(offer, total.value, inclusive));
      } else {
        if total.Some? { return Some(TotalNotAccepted); }
        Add(offer);
      }
      return None;
    }
  }

  /** What a line is of, and on what terms: all that the till compares. */
  datatype Label = Label(product: int, package: int, caption: int)

  datatype Terms = Terms(item: Label, unitPrice: Decimal, discountRate: Decimal, taxRate: Decimal, surcharge: Decimal,
                         tracksStock: bool, trackLots: bool)

  function LabelOf(line: CartLine): Label { Label(line.snapshot.product, line.package, line.caption) }

  function TermsOf(line: CartLine): Terms {
    var s := line.snapshot;
    Terms(LabelOf(line), s.unitPrice, s.discountRate, s.taxRate, s.surcharge, s.tracksStock, s.trackLots)
  }

  function BaseOf(item: Label): CartLine -> Decimal {
    (line: CartLine) => if LabelOf(line) == item then line.snapshot.quantityBase else 0.0
  }

  function PackagesOf(item: Label): CartLine -> Decimal {
    (line: CartLine) => if LabelOf(line) == item then line.snapshot.quantityPackages else 0.0
  }

  /** The only thing that may happen to a line of the cart: more of the same. */
  ghost predicate MoreOf(kept: CartLine, line: CartLine, after: CartLine) {
    && TermsOf(after) == TermsOf(kept)
    && after.snapshot.packagePrice == kept.snapshot.packagePrice && after.snapshot.packageFactor == kept.snapshot.packageFactor
    && after.snapshot.quantityPackages == kept.snapshot.quantityPackages + line.snapshot.quantityPackages
    && after.snapshot.quantityBase == kept.snapshot.quantityBase + line.snapshot.quantityBase
  }

  ghost predicate NoneOn(lines: seq<CartLine>, terms: Terms) {
    forall i :: 0 <= i < |lines| ==> TermsOf(lines[i]) != terms
  }

  /** The line at `k` grew: the first on the same terms; every other stayed. */
  ghost predicate GrewAt(lines: seq<CartLine>, line: CartLine, after: seq<CartLine>, k: nat) {
    && k < |lines| == |after| && TermsOf(lines[k]) == TermsOf(line) && NoneOn(lines[..k], TermsOf(line))
    && MoreOf(lines[k], line, after[k]) && after == lines[k := after[k]]
  }

  /** The line came last, as it is stored. */
  ghost predicate CameLast(lines: seq<CartLine>, line: CartLine, after: seq<CartLine>) {
    && |after| == |lines| + 1 && after[..|lines|] == lines
    && var s, t := line.snapshot, after[|lines|].snapshot;
       && LabelOf(after[|lines|]) == LabelOf(line)
       && t == s.(unitPrice := t.unitPrice, discountRate := t.discountRate)
       && t.unitPrice == Stored(s.unitPrice) && t.discountRate == Stored(s.discountRate)
  }

  /** The first line on the same terms grows and every other stays; with none, the line comes last, as it is stored. */
  ghost predicate Added(lines: seq<CartLine>, line: CartLine, after: seq<CartLine>) {
    if NoneOn(lines, TermsOf(line)) then CameLast(lines, line, after) else exists k: nat :: GrewAt(lines, line, after, k)
  }

  lemma NoneOnFront(lines: seq<CartLine>, terms: Terms)
    requires lines != [] && TermsOf(lines[0]) != terms
    ensures NoneOn(lines, terms) <==> NoneOn(lines[1..], terms)
  {
    hide TermsOf;
    if NoneOn(lines[1..], terms) {
      forall i | 0 <= i < |lines| ensures TermsOf(lines[i]) != terms {
        if i > 0 { assert lines[i] == lines[1..][i - 1]; }
      }
    }
  }

  lemma GrewLater(lines: seq<CartLine>, line: CartLine, later: seq<CartLine>, k: nat)
    requires lines != [] && TermsOf(lines[0]) != TermsOf(line) && GrewAt(lines[1..], line, later, k)
    ensures GrewAt(lines, line, [lines[0]] + later, k + 1)
  {
    hide TermsOf, MoreOf;
    assert lines[..k + 1][1..] == lines[1..][..k];
    NoneOnFront(lines[..k + 1], TermsOf(line));
  }

  lemma {:induction false} AddedToFirst(lines: seq<CartLine>, line: CartLine)
    ensures Added(lines, line, AddOrMerge(lines, line))
  {
    hide Stored;
    var after := AddOrMerge(lines, line);
    if lines == [] {
      assert after[..0] == lines;
    } else if Mergeable(lines[0], line) {
      assert GrewAt(lines, line, after, 0);
    } else {
      hide GrewAt;
      var later := AddOrMerge(lines[1..], line);
      AddedToFirst(lines[1..], line);
      NoneOnFront(lines, TermsOf(line));
      if NoneOn(lines[1..], TermsOf(line)) {
        assert after[..|lines|] == [lines[0]] + later[..|lines| - 1];
      } else {
        var k: nat :| GrewAt(lines[1..], line, later, k);
        GrewLater(lines, line, later, k);
      }
    }
  }

  /** Per product, presentation and caption, the cart grew by the line's own quantities and by nothing else. */
  ghost predicate AddsUp(lines: seq<CartLine>, line: CartLine, after: seq<CartLine>) {
    forall item ::
      && Sum(after, BaseOf(item)) == Sum(lines, BaseOf(item)) + BaseOf(item)(line)
      && Sum(after, PackagesOf(item)) == Sum(lines, PackagesOf(item)) + PackagesOf(item)(line)
  }

  /** However the cart is added up, a scan adds its own quantity to its own product, presentation and caption. */
  lemma {:induction false} AddedToItsOwn(lines: seq<CartLine>, line: CartLine)
    ensures var after := AddOrMerge(lines, line);
            Added(lines, line, after) && AddsUp(lines, line, after) && |after| <= |lines| + 1
  {
    AddedToFirst(lines, line);
    hide Added, AddOrMerge, Sum;
    AddedQuantity(lines, line, LabelOf(line));
    forall item
      ensures var after := AddOrMerge(lines, line);
              && Sum(after, BaseOf(item)) == Sum(lines, BaseOf(item)) + BaseOf(item)(line)
              && Sum(after, PackagesOf(item)) == Sum(lines, PackagesOf(item)) + PackagesOf(item)(line)
    {
      AddedQuantity(lines, line, item);
    }
  }

  lemma SumFromFront(lines: seq<CartLine>, weight: CartLine -> Decimal)
    requires lines != []
    ensures Sum(lines, weight) == weight(lines[0]) + Sum(lines[1..], weight)
  {
    assert lines == [lines[0]] + lines[1..];
    SumAppend([lines[0]], lines[1..], weight);
    assert [lines[0]][..0] == [];
    assert Sum([lines[0]], weight) == weight(lines[0]);
  }

  lemma {:induction false} AddedQuantity(lines: seq<CartLine>, line: CartLine, item: Label)
    ensures var after := AddOrMerge(lines, line);
            && |after| <= |lines| + 1
            && Sum(after, BaseOf(item)) == Sum(lines, BaseOf(item)) + BaseOf(item)(line)
            && Sum(after, PackagesOf(item)) == Sum(lines, PackagesOf(item)) + PackagesOf(item)(line)
  {
    var after := AddOrMerge(lines, line);
    SumFromFront(after, BaseOf(item));
    SumFromFront(after, PackagesOf(item));
    if lines == [] {
      assert after[1..] == [];
    } else {
      SumFromFront(lines, BaseOf(item));
      SumFromFront(lines, PackagesOf(item));
      if Mergeable(lines[0], line) {
        assert after[1..] == lines[1..];
      } else {
        AddedQuantity(lines[1..], line, item);
        assert after[1..] == AddOrMerge(lines[1..], line);
      }
    }
  }

  datatype CartError = TotalRequired | NotOneBaseUnit | TotalNotAccepted

  function Refusal(offer: CartLine, openPrice: bool, isBase: bool, total: Option<Decimal>): Option<CartError> {
    if openPrice && total.None? then Some(TotalRequired)
    else if openPrice && (!isBase || offer.snapshot.quantityPackages != 1.0) then Some(NotOneBaseUnit)
    else if !openPrice && total.Some? then Some(TotalNotAccepted)
    else None
  }

  /** The unit price that a final amount comes to: the tax is taken out when prices are net. */
  function OpenPrice(total: Decimal, taxRate: Decimal, inclusive: bool): (price: Decimal)
    requires 0.0 <= total && 0.0 <= taxRate
    ensures 0.0 <= price
  {
    var exact := if inclusive then total else total / (1.0 + taxRate / 100.0);
    assert exact >= 0.0;
    Quantize(exact) as real / 1000000.0
  }

  function Priced(offer: CartLine, total: Decimal, inclusive: bool): CartLine
    requires 0.0 <= total
  {
    offer.(snapshot := offer.snapshot.(unitPrice := OpenPrice(total, offer.snapshot.taxRate, inclusive)))
  }

  // What merging does to the amount charged.

  /** The line's amount before it is rounded. */
  ghost function Exact(line: CartLine, inclusive: bool): Decimal {
    var s := line.snapshot;
    (if s.packagePrice.Some? then s.quantityPackages else s.quantityBase) * UnitCharge(TariffOf(s, inclusive))
  }

  lemma TotalIsExactRounded(line: CartLine, inclusive: bool)
    ensures LineTotals(line.snapshot, inclusive).total == Quantize(Exact(line, inclusive))
  {
    hide ComputeAmounts, UnitCharge, Quantize, TariffOf, Sellable;
    var s := line.snapshot;
    var quantity := if s.packagePrice.Some? then s.quantityPackages else s.quantityBase;
    var exact := TotalIsLinear(TariffOf(s, inclusive), quantity);
    assert Exact(line, inclusive) == exact;
    assert LineTotals(s, inclusive) == ComputeAmounts(TariffOf(s, inclusive), quantity);
  }

  lemma Distribute(a: Decimal, b: Decimal, c: Decimal)
    ensures (a + b) * c == a * c + b * c
  {}

  /** Merging lines of one presentation at one price comes to exactly what the two lines do, before rounding. */
  lemma MergeAddsUp(kept: CartLine, line: CartLine, inclusive: bool)
    requires Mergeable(kept, line)
    requires kept.snapshot.packageFactor == line.snapshot.packageFactor
    requires kept.snapshot.packagePrice == line.snapshot.packagePrice
    ensures Exact(Enlarged(kept, line), inclusive) == Exact(kept, inclusive) + Exact(line, inclusive)
    ensures Packaged(kept.snapshot) && Packaged(line.snapshot) ==> Packaged(Enlarged(kept, line).snapshot)
  {
    hide UnitCharge;
    var a, b := kept.snapshot, line.snapshot;
    var unit := UnitCharge(TariffOf(a, inclusive));
    assert TariffOf(Enlarged(kept, line).snapshot, inclusive) == TariffOf(a, inclusive) == TariffOf(b, inclusive);
    Distribute(a.quantityPackages, b.quantityPackages, unit);
    Distribute(a.quantityBase, b.quantityBase, unit);
    Distribute(a.quantityPackages, b.quantityPackages, a.packageFactor);
  }

  lemma RoundedSum(x: Decimal, y: Decimal)
    ensures -1 <= Quantize(x + y) - Quantize(x) - Quantize(y) <= 1
  {}

  /** Once rounded, the merged line is charged within a millionth of the two lines. */
  lemma MergedLineIsClose(kept: CartLine, line: CartLine, inclusive: bool)
    requires Mergeable(kept, line)
    requires kept.snapshot.packageFactor == line.snapshot.packageFactor
    requires kept.snapshot.packagePrice == line.snapshot.packagePrice
    ensures -1 <= LineTotals(Enlarged(kept, line).snapshot, inclusive).total - LineTotals(kept.snapshot, inclusive).total
                  - LineTotals(line.snapshot, inclusive).total <= 1
  {
    hide Exact, LineTotals, Quantize;
    MergeAddsUp(kept, line, inclusive);
    TotalIsExactRounded(Enlarged(kept, line), inclusive);
    TotalIsExactRounded(kept, inclusive);
    TotalIsExactRounded(line, inclusive);
    RoundedSum(Exact(kept, inclusive), Exact(line, inclusive));
  }

  /** What one package costs before discount: the presentation's own price if it has one, else its base units'. */
  function PackagePrice(s: SaleLine): Decimal {
    if s.packagePrice.Some? then s.packagePrice.value else s.unitPrice * s.packageFactor
  }

  /** The same snapshot, priced by the package either way. */
  ghost function PackageTariff(s: SaleLine, inclusive: bool): Tariff {
    Tariff(PackagePrice(s), s.surcharge * s.packageFactor, s.discountRate, s.taxRate, inclusive)
  }

  /** Every line is worth its packages at the package's price. */
  lemma ExactByPackage(line: CartLine, inclusive: bool)
    requires Packaged(line.snapshot)
    ensures Exact(line, inclusive) == line.snapshot.quantityPackages * UnitCharge(PackageTariff(line.snapshot, inclusive))
  {
    hide UnitCharge;
    var s := line.snapshot;
    if s.packagePrice.None? {
      var t, larger := TariffOf(s, inclusive), PackageTariff(s, inclusive);
      UnitChargeScales(t, larger, s.packageFactor);
      Regrouped(s.quantityPackages, s.packageFactor, UnitCharge(t), UnitCharge(larger));
      assert Exact(line, inclusive) == s.quantityPackages * s.packageFactor * UnitCharge(t);
    }
  }

  lemma Regrouped(a: Decimal, b: Decimal, c: Decimal, product: Decimal)
    requires product == b * c
    ensures a * product == a * b * c
  {}

  lemma UnitChargeGrows(a: Tariff, b: Tariff)
    requires Admissible(a) && b == a.(price := b.price) && a.price < b.price && a.discountRate < 100.0
    ensures UnitCharge(a) < UnitCharge(b)
  {
    var left := 1.0 - a.discountRate / 100.0;
    assert Remaining(a, 1.0) == a.price * left + a.surcharge;
    assert Remaining(b, 1.0) == b.price * left + a.surcharge;
    assert a.price * left < b.price * left;
    assert Remaining(a, 1.0) < Remaining(b, 1.0);
    assert Remaining(a, 1.0) * a.taxRate <= Remaining(b, 1.0) * a.taxRate;
  }

  /** A full discount forgets the price, and nothing else does. */
  lemma SameUnitCharge(a: Tariff, b: Tariff)
    requires Admissible(a) && Admissible(b) && b == a.(price := b.price)
    ensures UnitCharge(a) == UnitCharge(b) <==> a.price == b.price || a.discountRate == 100.0
  {
    if a.discountRate == 100.0 {
      assert Remaining(a, 1.0) == a.surcharge == Remaining(b, 1.0);
    } else {
      hide UnitCharge;
      if a.price < b.price { UnitChargeGrows(a, b); }
      if b.price < a.price { UnitChargeGrows(b, a); }
    }
  }

  lemma PackageTariffIsAdmissible(s: SaleLine, inclusive: bool)
    ensures Admissible(PackageTariff(s, inclusive))
  {}

  /** The price of a presentation can be set, edited or removed between two scans that still merge, and the new quantity
      is then charged at the old price: the merge is faithful exactly when a package costs the same in both lines, or a
      full discount makes its price irrelevant. */
  lemma MergeIsFaithfulUnlessRepriced(kept: CartLine, line: CartLine, inclusive: bool)
    requires Mergeable(kept, line) && kept.snapshot.packageFactor == line.snapshot.packageFactor
    requires Packaged(kept.snapshot) && Packaged(line.snapshot) && line.snapshot.quantityPackages > 0.0
    ensures Exact(Enlarged(kept, line), inclusive) == Exact(kept, inclusive) + Exact(line, inclusive)
       <==> PackagePrice(kept.snapshot) == PackagePrice(line.snapshot) || line.snapshot.discountRate == 100.0
  {
    hide UnitCharge, Exact, Sellable, Admissible;
    var a, b, merged := kept.snapshot, line.snapshot, Enlarged(kept, line);
    var s, t := PackageTariff(a, inclusive), PackageTariff(b, inclusive);
    assert PackageTariff(merged.snapshot, inclusive) == s;
    Distribute(a.quantityPackages, b.quantityPackages, a.packageFactor);
    ExactByPackage(kept, inclusive);
    ExactByPackage(line, inclusive);
    ExactByPackage(merged, inclusive);
    PackageTariffIsAdmissible(a, inclusive);
    PackageTariffIsAdmissible(b, inclusive);
    SameUnitCharge(s, t);
    Distribute(a.quantityPackages, b.quantityPackages, UnitCharge(s));
    Same(b.quantityPackages, UnitCharge(s), UnitCharge(t));
  }

  lemma Same(q: Decimal, x: Decimal, y: Decimal)
    requires q > 0.0
    ensures q * x == q * y <==> x == y
  {}

  /** A line merges with its own earlier scan exactly when its unit price and its discount have six decimals: otherwise
      what was stored was rounded and no longer coincides. */
  lemma MergesWithItself(line: CartLine)
    ensures Mergeable(StoredLine(line), line)
       <==> AtScale(line.snapshot.unitPrice) && AtScale(line.snapshot.discountRate)
  {}

  /** Three units for 1.00, and one unit at 1.00 less 33.3333333%: neither merges with its own earlier scan. */
  lemma TooFineToMerge() returns (price: CartLine, discount: CartLine)
    ensures price.snapshot.unitPrice == 1.0 / 3.0 && price.snapshot.discountRate == 0.0
    ensures discount.snapshot.unitPrice == 1.0 && discount.snapshot.discountRate == 33.3333333
    ensures !Mergeable(StoredLine(price), price) && !Mergeable(StoredLine(discount), discount)
  {
    price := CartLine(1, 1, LineSnapshot(1, 1.0, 3.0, 3.0, 1.0 / 3.0, Some(1.0), 0.0, 0.0, 0.0, false, false));
    discount := CartLine(1, 1, LineSnapshot(1, 1.0, 1.0, 1.0, 1.0, None, 0.0, 33.3333333, 0.0, false, false));
    assert (1.0 / 3.0 * 1000000.0 + 0.5).Floor == 333333;
    assert (33.3333333 * 1000000.0 + 0.5).Floor == 33333333;
  }

  /** One scan of a hundred thousand units with no tax, discount or supplement. */
  function Scan(unitPrice: Decimal, packagePrice: Option<Decimal>): CartLine
    requires unitPrice >= 0.0 && (packagePrice.Some? ==> packagePrice.value >= 0.0)
  {
    CartLine(1, 1, LineSnapshot(1, 1.0, 100000.0, 100000.0, unitPrice, packagePrice, 0.0, 0.0, 0.0, false, false))
  }

  /** What checkout asks for two lines, merged and apart. */
  function ChargedMerged(kept: CartLine, line: CartLine, inclusive: bool): Micro {
    Payable(LineTotals(Enlarged(kept, line).snapshot, inclusive).total)
  }

  function ChargedApart(kept: CartLine, line: CartLine, inclusive: bool): Micro {
    Payable(LineTotals(kept.snapshot, inclusive).total + LineTotals(line.snapshot, inclusive).total)
  }

  /** With nothing but a price, a line is charged its quantity at that price. */
  lemma PlainTotal(line: CartLine, amount: Micro, inclusive: bool)
    requires line.snapshot.surcharge == 0.0 && line.snapshot.discountRate == 0.0 && line.snapshot.taxRate == 0.0
    requires var s := line.snapshot;
             amount as real / 1000000.0
               == if s.packagePrice.Some? then s.quantityPackages * s.packagePrice.value else s.quantityBase * s.unitPrice
    ensures LineTotals(line.snapshot, inclusive).total == amount
  {
    var t := TariffOf(line.snapshot, inclusive);
    assert UnitCharge(t) == t.price;
    assert Exact(line, inclusive) == amount as real / 1000000.0;
    hide Exact, LineTotals;
    TotalIsExactRounded(line, inclusive);
    WholeIsQuantized(amount);
  }

  lemma WholeIsQuantized(amount: Micro)
    ensures Quantize(amount as real / 1000000.0) == amount
  {
    assert amount as real / 1000000.0 * 1000000.0 == amount as real;
  }

  lemma ScanIsStored()
    ensures Stored(1.01 / 100000.0) == 0.00001 && Stored(0.0) == 0.0
  {
    assert (1.01 / 100000.0 * 1000000.0 + 0.5).Floor == 10;
    assert (0.0 * 1000000.0 + 0.5).Floor == 0;
  }

  lemma WholeCents()
    ensures Payable(2_020_000) == 2_020_000 && Payable(1_010_000 + 1_000_000) == 2_010_000
  {}

  /** It does happen, and costs the customer a cent: 1.01 for a hundred thousand units is stored as 0.00001 a unit, which
      is also what 1.00 comes to, so a second scan at 1.00 is charged at 1.01. */
  lemma RepricedLinesCanMerge(inclusive: bool) returns (kept: CartLine, line: CartLine)
    ensures kept == StoredLine(Scan(1.01 / 100000.0, Some(1.01))) && line == Scan(1.00 / 100000.0, Some(1.00))
    ensures Mergeable(kept, line)
    ensures ChargedMerged(kept, line, inclusive) == 2_020_000 && ChargedApart(kept, line, inclusive) == 2_010_000
  {
    kept, line := StoredLine(Scan(1.01 / 100000.0, Some(1.01))), Scan(1.00 / 100000.0, Some(1.00));
    ScanIsStored();
    hide LineTotals, Quantize, Stored, Sellable, TariffOf, Payable;
    WholeCents();
    PlainTotal(kept, 1_010_000, inclusive);
    PlainTotal(line, 1_000_000, inclusive);
    PlainTotal(Enlarged(kept, line), 2_020_000, inclusive);
  }

  lemma UnpricedScan(inclusive: bool)
    ensures LineTotals(Scan(0.00001, None).snapshot, inclusive).total == 1_000_000
  {
    hide LineTotals;
    assert 100000.0 * 0.00001 == 1_000_000 as real / 1000000.0;
    PlainTotal(Scan(0.00001, None), 1_000_000, inclusive);
  }

  lemma PricedScan(inclusive: bool) returns (kept: CartLine)
    ensures kept == StoredLine(Scan(1.01 / 100000.0, Some(1.01)))
    ensures Mergeable(kept, Scan(0.00001, None))
    ensures LineTotals(kept.snapshot, inclusive).total == 1_010_000
    ensures LineTotals(Enlarged(kept, Scan(0.00001, None)).snapshot, inclusive).total == 2_020_000
  {
    kept := StoredLine(Scan(1.01 / 100000.0, Some(1.01)));
    ScanIsStored();
    hide LineTotals, Quantize, Stored;
    PlainTotal(kept, 1_010_000, inclusive);
    PlainTotal(Enlarged(kept, Scan(0.00001, None)), 2_020_000, inclusive);
  }

  /** The same cent when the presentation's price was removed in between and the product costs 0.00001 a unit. */
  lemma UnpricedLinesCanMerge(inclusive: bool) returns (kept: CartLine, line: CartLine)
    ensures kept == StoredLine(Scan(1.01 / 100000.0, Some(1.01))) && line == Scan(0.00001, None)
    ensures Mergeable(kept, line)
    ensures ChargedMerged(kept, line, inclusive) == 2_020_000 && ChargedApart(kept, line, inclusive) == 2_010_000
  {
    hide LineTotals, Mergeable, StoredLine, Enlarged, Scan, Payable;
    kept := PricedScan(inclusive);
    line := Scan(0.00001, None);
    WholeCents();
    UnpricedScan(inclusive);
  }

  // Open prices, from the cashier's keyboard to the amount charged.

  /** What the cashier enters: a button and an amount in whole cents. */
  datatype Entry = Entry(product: int, package: int, caption: int, taxRate: Decimal, cents: nat, tracksStock: bool, trackLots: bool)

  ghost predicate AllTaxed(entries: seq<Entry>) {
    forall i :: 0 <= i < |entries| ==> entries[i].taxRate >= 0.0
  }

  ghost function Entered(e: Entry): Decimal { e.cents as real / 100.0 }

  /** One base unit with no discount, no supplement and no price of its own. */
  ghost function OpenLine(e: Entry, inclusive: bool): CartLine
    requires e.taxRate >= 0.0
  {
    Priced(CartLine(e.package, e.caption,
                    LineSnapshot(e.product, 1.0, 1.0, 1.0, 0.0, None, 0.0, 0.0, e.taxRate, e.tracksStock, e.trackLots)),
           Entered(e), inclusive)
  }

  ghost function OpenCart(entries: seq<Entry>, inclusive: bool): seq<CartLine>
    requires AllTaxed(entries)
  {
    if entries == [] then []
    else AddOrMerge(OpenCart(entries[..|entries| - 1], inclusive), OpenLine(entries[|entries| - 1], inclusive))
  }

  ghost function ExactTotal(lines: seq<CartLine>, inclusive: bool): Decimal {
    if lines == [] then 0.0 else Exact(lines[0], inclusive) + ExactTotal(lines[1..], inclusive)
  }

  function Snapshots(lines: seq<CartLine>): seq<SaleLine> {
    seq(|lines|, i requires 0 <= i < |lines| => lines[i].snapshot)
  }

  ghost function EnteredCents(entries: seq<Entry>): nat {
    if entries == [] then 0 else EnteredCents(entries[..|entries| - 1]) + entries[|entries| - 1].cents
  }

  /** How far one entry may be from what is charged for it, in millionths. */
  ghost function Slack(e: Entry): Decimal { 0.5 + 0.5 * (1.0 + e.taxRate / 100.0) }

  ghost function TaxSlack(e: Entry): Decimal { 0.5 * (1.0 + e.taxRate / 100.0) }

  ghost predicate AllOpen(lines: seq<CartLine>) {
    forall i :: 0 <= i < |lines| ==>
      lines[i].snapshot.packagePrice.None? && lines[i].snapshot.packageFactor == 1.0
      && AtScale(lines[i].snapshot.unitPrice) && AtScale(lines[i].snapshot.discountRate)
  }

  lemma {:induction false} AddKeepsExact(lines: seq<CartLine>, line: CartLine, inclusive: bool)
    requires AllOpen(lines) && AllOpen([line])
    ensures var after := AddOrMerge(lines, line);
            && AllOpen(after) && |after| <= |lines| + 1
            && ExactTotal(after, inclusive) == ExactTotal(lines, inclusive) + Exact(line, inclusive)
  {
    hide Exact, Stored;
    if lines == [] {
      assert StoredLine([line][0]) == line;
    } else if Mergeable(lines[0], line) {
      assert [line][0] == line;
      MergeAddsUp(lines[0], line, inclusive);
      var after := [Enlarged(lines[0], line)] + lines[1..];
      assert after[1..] == lines[1..];
    } else {
      AddKeepsExact(lines[1..], line, inclusive);
      var rest := AddOrMerge(lines[1..], line);
      assert ([lines[0]] + rest)[1..] == rest;
    }
  }

  lemma TakeOutAndPutBack(total: Decimal, growth: Decimal)
    requires growth > 0.0
    ensures total / growth * growth == total
  {}

  lemma Regroup(u: Decimal, exact: Decimal, growth: Decimal)
    ensures (u * 1000000.0 - exact * 1000000.0) * growth == u * growth * 1000000.0 - exact * growth * 1000000.0
  {}

  lemma Scaled(miss: Decimal, growth: Decimal)
    requires -0.5 <= miss <= 0.5 && growth >= 0.0
    ensures -0.5 * growth <= miss * growth <= 0.5 * growth
  {}

  lemma TaxedMiss(u: Decimal, exact: Decimal, growth: Decimal, total: Decimal, charged: Decimal)
    requires growth > 0.0 && total == exact * growth && charged == u * growth
    requires -0.5 <= u * 1000000.0 - exact * 1000000.0 <= 0.5
    ensures -0.5 * growth <= charged * 1000000.0 - total * 1000000.0 <= 0.5 * growth
  {
    var miss := u * 1000000.0 - exact * 1000000.0;
    Regroup(u, exact, growth);
    Scaled(miss, growth);
    assert miss * growth == charged * 1000000.0 - total * 1000000.0;
  }

  /** Taking the tax out of an amount and putting it back misses it by half a millionth, grown by the tax. */
  lemma OpenPriceIsClose(total: Decimal, taxRate: Decimal) returns (charged: Decimal)
    requires total >= 0.0 && taxRate >= 0.0
    ensures charged == OpenPrice(total, taxRate, false) * (1.0 + taxRate / 100.0)
    ensures -0.5 * (1.0 + taxRate / 100.0) <= charged * 1000000.0 - total * 1000000.0 <= 0.5 * (1.0 + taxRate / 100.0)
  {
    var growth := 1.0 + taxRate / 100.0;
    var exact, u := total / growth, OpenPrice(total, taxRate, false);
    assert u == Quantize(exact) as real / 1000000.0;
    TakeOutAndPutBack(total, growth);
    charged := u * growth;
    TaxedMiss(u, exact, growth, total, charged);
  }

  lemma OpenUnit(e: Entry, inclusive: bool)
    requires e.taxRate >= 0.0
    ensures var u := OpenPrice(Entered(e), e.taxRate, inclusive);
            Exact(OpenLine(e, inclusive), inclusive) == if inclusive then u else u * (1.0 + e.taxRate / 100.0)
  {
    hide OpenPrice, Quantize;
    var u := OpenPrice(Entered(e), e.taxRate, inclusive);
    var t := TariffOf(OpenLine(e, inclusive).snapshot, inclusive);
    assert Remaining(t, 1.0) == u;
    assert u * (1.0 + e.taxRate / 100.0) == u + u * e.taxRate / 100.0;
  }

  lemma OpenUnitIsStored(e: Entry, inclusive: bool)
    requires e.taxRate >= 0.0
    ensures AllOpen([OpenLine(e, inclusive)])
  {
    hide Quantize, Stored;
    var growth := 1.0 + e.taxRate / 100.0;
    var exact := if inclusive then Entered(e) else Entered(e) / growth;
    assert exact >= 0.0;
    assert Quantize(exact) >= 0 by { QuantizeIsNonNegative(exact); }
    WholeIsStored(Quantize(exact));
    WholeIsStored(0);
  }

  lemma QuantizeIsNonNegative(x: Decimal)
    requires x >= 0.0
    ensures Quantize(x) >= 0
  {}

  lemma OpenLineIsClose(e: Entry, inclusive: bool)
    requires e.taxRate >= 0.0
    ensures var miss := Exact(OpenLine(e, inclusive), inclusive) * 1000000.0 - Entered(e) * 1000000.0;
            -TaxSlack(e) <= miss <= TaxSlack(e)
  {
    OpenUnit(e, inclusive);
    hide Exact, OpenLine;
    if inclusive {
      assert Entered(e) * 1000000.0 == (e.cents * 10000) as real;
    } else {
      hide OpenPrice;
      var charged := OpenPriceIsClose(Entered(e), e.taxRate);
    }
  }

  lemma {:induction false} OpenCartIsClose(entries: seq<Entry>, inclusive: bool)
    requires AllTaxed(entries)
    ensures var lines := OpenCart(entries, inclusive);
            && AllOpen(lines) && |lines| <= |entries|
            && var miss := ExactTotal(lines, inclusive) * 1000000.0 - (EnteredCents(entries) * 10000) as real;
               -Sum(entries, TaxSlack) <= miss <= Sum(entries, TaxSlack)
  {
    hide Exact, OpenLine, TaxSlack, Stored;
    if entries != [] {
      var front, e := entries[..|entries| - 1], entries[|entries| - 1];
      OpenCartIsClose(front, inclusive);
      OpenLineIsClose(e, inclusive);
      OpenUnitIsStored(e, inclusive);
      AddKeepsExact(OpenCart(front, inclusive), OpenLine(e, inclusive), inclusive);
    }
  }

  lemma {:induction false} RawTotalIsClose(lines: seq<CartLine>, inclusive: bool)
    ensures var miss := RawTotal(Snapshots(lines), inclusive) as real - ExactTotal(lines, inclusive) * 1000000.0;
            -0.5 * |lines| as real <= miss <= 0.5 * |lines| as real
  {
    hide Exact, LineTotals;
    if lines != [] {
      TotalIsExactRounded(lines[0], inclusive);
      RawTotalIsClose(lines[1..], inclusive);
      RawTotalFromFront(Snapshots(lines), inclusive);
      assert Snapshots(lines)[1..] == Snapshots(lines[1..]);
    }
  }

  lemma {:induction false} SlackSplits(entries: seq<Entry>)
    ensures Sum(entries, Slack) == 0.5 * |entries| as real + Sum(entries, TaxSlack)
  {
    if entries != [] { SlackSplits(entries[..|entries| - 1]); }
  }

  /** The open-price round trip: amounts entered at the till, merged or not, are charged to the cent, as long as the
      entries' rounding slack stays under half a cent in all. */
  lemma {:induction false} OpenPricesAreCharged(entries: seq<Entry>, inclusive: bool)
    requires AllTaxed(entries) && Sum(entries, Slack) < 5000.0
    ensures ChargeOf(Snapshots(OpenCart(entries, inclusive)), inclusive) == EnteredCents(entries) * CENT
  {
    hide OpenCart, RawTotal, Slack, TaxSlack, Payable, Sum;
    var lines := OpenCart(entries, inclusive);
    OpenCartIsClose(entries, inclusive);
    RawTotalIsClose(lines, inclusive);
    SlackSplits(entries);
    PayableSnaps(RawTotal(Snapshots(lines), inclusive), EnteredCents(entries) * CENT);
  }
}
