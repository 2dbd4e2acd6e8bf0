/** The figures of a Z: what a set of completed sales and refunds adds up to. */
module ZTotals {
  import opened Money
  import opened SaleLines
  import opened Sums

  datatype Method = Cash | Card | Other

  datatype Payment = Payment(means: Method, amount: Micro)

  /** A sale as checkout left it; cashier identity and fiscal mode are snapshots. */
  datatype Sale = Sale(id: int, lines: seq<SaleLine>, payments: seq<Payment>, inclusive: bool,
                       terminal: Option<int>, cashier: (Option<int>, string), number: nat)

  /** A historical refund may have no method. */
  datatype Refund = Refund(means: Option<Method>, amount: Micro)

  /** A sale line joined with the fiscal mode of its sale. */
  datatype Row = Row(sale: int, inclusive: bool, line: SaleLine)

  /** One amount of each kind per key, as the report's dictionaries hold them. */
  datatype Rates = Rates(base: map<Decimal, Micro>, tax: map<Decimal, Micro>, total: map<Decimal, Micro>)

  datatype Shares<K> = Shares(count: map<K, int>, gross: map<K, Micro>)

  datatype Totals = Totals(count: nat, gross: Micro, tax: Micro, discount: Micro, collected: map<Method, Micro>,
                           byRate: Rates, byTerminal: Shares<Option<int>>, byCashier: Shares<(Option<int>, string)>,
                           first: Option<nat>, last: Option<nat>,
                           refunds: nat, refunded: Micro, refundedBy: map<Option<Method>, Micro>)

  function RowAmounts(r: Row): Amounts { LineTotals(r.line, r.inclusive) }

  function RowTotal(r: Row): Micro { RowAmounts(r).total }

  function RowTax(r: Row): Micro { RowAmounts(r).tax }

  function RowBase(r: Row): Micro { RowTotal(r) - RowTax(r) }

  function RowDiscount(r: Row): Micro { RowAmounts(r).discount }

  function RowRate(r: Row): Decimal { r.line.taxRate }

  function RowSale(r: Row): int { r.sale }

  function RowsOf(id: int, inclusive: bool, lines: seq<SaleLine>): seq<Row> {
    if lines == [] then [] else RowsOf(id, inclusive, lines[..|lines| - 1]) + [Row(id, inclusive, lines[|lines| - 1])]
  }

  function Rows(sales: seq<Sale>): seq<Row> {
    if sales == [] then []
    else
      var s := sales[|sales| - 1];
      Rows(sales[..|sales| - 1]) + RowsOf(s.id, s.inclusive, s.lines)
  }

  /** What a sale was charged: its line totals, rounded to cents once. */
  function Charged(s: Sale): Micro { ChargeOf(s.lines, s.inclusive) }

  lemma {:induction false} RowsAddUp(id: int, inclusive: bool, lines: seq<SaleLine>)
    ensures Count(RowsOf(id, inclusive, lines), RowTotal) == RawTotal(lines, inclusive)
  {
    hide LineTotals;
    if lines != [] { RowsAddUp(id, inclusive, lines[..|lines| - 1]); }
  }

  function AmountBy(m: Method): Payment -> Micro { (p: Payment) => if p.means == m then p.amount else 0 }

  function Tendered(s: Sale, m: Method): Micro { Count(s.payments, AmountBy(m)) }

  function TenderedInAll(s: Sale): Micro { Tendered(s, Cash) + Tendered(s, Card) + Tendered(s, Other) }

  function Change(s: Sale): Micro {
    if TenderedInAll(s) > Charged(s) then TenderedInAll(s) - Charged(s) else 0
  }

  /** What stays in the till: change only ever comes out of the cash. */
  function Collected(s: Sale, m: Method): Micro {
    if m == Cash then Tendered(s, m) - Change(s) else Tendered(s, m)
  }

  /** Checkout's payment test: the change due, or nothing when the tenders are refused. */
  function AcceptTender(s: Sale): Option<Micro> {
    var change := TenderedInAll(s) - Charged(s);
    if change < 0 then None
    else if change > 0 && Tendered(s, Cash) < change then None
    else Some(change)
  }

  /** The request schema: every tender is positive. */
  ghost predicate PositiveTenders(s: Sale) {
    forall p :: p in s.payments ==> 0 < p.amount
  }

  ghost predicate Settled(s: Sale) {
    PositiveTenders(s) && AcceptTender(s).Some?
  }

  function CollectedBy(m: Method): Sale -> Micro { (s: Sale) => Collected(s, m) }

  function TerminalOf(s: Sale): Option<int> { s.terminal }

  function CashierOf(s: Sale): (Option<int>, string) { s.cashier }

  function One(s: Sale): int { 1 }

  function RefundAmount(r: Refund): Micro { r.amount }

  function RefundMethod(r: Refund): Option<Method> { r.means }

  const METHODS: set<Method> := {Cash, Card, Other}

  const REFUND_KEYS: set<Option<Method>> := {Some(Cash), Some(Card), Some(Other), None}

  ghost function ByRate(rows: seq<Row>): Rates {
    Rates(Filed(rows, RowRate, RowBase), Filed(rows, RowRate, RowTax), Filed(rows, RowRate, RowTotal))
  }

  ghost function SharesBy<K(!new)>(sales: seq<Sale>, key: Sale -> K): Shares<K> {
    Shares(Filed(sales, key, One), Filed(sales, key, Charged))
  }

  function LeastNumber(sales: seq<Sale>): Option<nat> {
    if sales == [] then None
    else
      var before, n := LeastNumber(sales[..|sales| - 1]), sales[|sales| - 1].number;
      if before.Some? && before.value <= n then before else Some(n)
  }

  function GreatestNumber(sales: seq<Sale>): Option<nat> {
    if sales == [] then None
    else
      var before, n := GreatestNumber(sales[..|sales| - 1]), sales[|sales| - 1].number;
      if before.Some? && before.value >= n then before else Some(n)
  }

  /** The figures, each defined on its own from the sales and the refunds. */
  ghost function TotalsOf(sales: seq<Sale>, refunds: seq<Refund>): Totals {
    var rows := Rows(sales);
    Totals(|sales|, Count(sales, Charged), Count(rows, RowTax), Count(rows, RowDiscount),
           map m | m in METHODS :: Count(sales, CollectedBy(m)),
           ByRate(rows), SharesBy(sales, TerminalOf), SharesBy(sales, CashierOf),
           LeastNumber(sales), GreatestNumber(sales), |refunds|, Count(refunds, RefundAmount),
           map k | k in REFUND_KEYS :: Group(refunds, RefundMethod, RefundAmount, k))
  }

  /** The payment test accepts exactly the sales that balance: what stays is the charge, and no cash is missing. */
  lemma TenderTestIsExact(s: Sale)
    requires PositiveTenders(s)
    ensures AcceptTender(s).Some? <==>
            && Collected(s, Cash) + Collected(s, Card) + Collected(s, Other) == Charged(s)
            && 0 <= Collected(s, Cash)
    ensures 0 <= Collected(s, Card) && 0 <= Collected(s, Other)
  {
    hide Charged;
    TenderIsNonNegative(s.payments, Cash);
    TenderIsNonNegative(s.payments, Card);
    TenderIsNonNegative(s.payments, Other);
  }

  lemma {:induction false} TenderIsNonNegative(payments: seq<Payment>, m: Method)
    requires forall p :: p in payments ==> 0 < p.amount
    ensures 0 <= Count(payments, AmountBy(m))
  {
    if payments != [] {
      TenderIsNonNegative(payments[..|payments| - 1], m);
      assert payments[|payments| - 1] in payments;
    }
  }

  /** The till balances: cash, card and other add up to the gross total exactly, each of them non-negative. */
  lemma {:induction false} CollectedIsGross(sales: seq<Sale>)
    requires forall s :: s in sales ==> Settled(s)
    ensures Count(sales, CollectedBy(Cash)) + Count(sales, CollectedBy(Card)) + Count(sales, CollectedBy(Other))
         == Count(sales, Charged)
    ensures 0 <= Count(sales, CollectedBy(Cash)) && 0 <= Count(sales, CollectedBy(Card))
    ensures 0 <= Count(sales, CollectedBy(Other))
  {
    hide AcceptTender, Collected, Charged;
    if sales != [] {
      var s := sales[|sales| - 1];
      assert s in sales;
      CollectedIsGross(sales[..|sales| - 1]);
      TenderTestIsExact(s);
    }
  }

  lemma {:induction false} CountAppend<T>(a: seq<T>, b: seq<T>, weight: T -> int)
    ensures Count(a + b, weight) == Count(a, weight) + Count(b, weight)
  {
    if b == [] {
      assert a + b == a;
    } else {
      CountAppend(a, b[..|b| - 1], weight);
      assert (a + b)[..|a + b| - 1] == a + b[..|b| - 1];
    }
  }

  /** Cents are rounded once per sale, so the lines are off the gross by at most half a cent a sale. */
  lemma {:induction false} LinesAreCloseToGross(sales: seq<Sale>)
    ensures -|sales| * CENT <= 2 * (Count(sales, Charged) - Count(Rows(sales), RowTotal)) <= |sales| * CENT
  {
    hide RowTotal;
    if sales != [] {
      var s := sales[|sales| - 1];
      LinesAreCloseToGross(sales[..|sales| - 1]);
      CountAppend(Rows(sales[..|sales| - 1]), RowsOf(s.id, s.inclusive, s.lines), RowTotal);
      RowsAddUp(s.id, s.inclusive, s.lines);
    }
  }

  lemma {:induction false} BaseAndTax(rows: seq<Row>)
    ensures Count(rows, RowBase) + Count(rows, RowTax) == Count(rows, RowTotal)
  {
    if rows != [] {
      BaseAndTax(rows[..|rows| - 1]);
    }
  }

  lemma {:induction false} OneEach(sales: seq<Sale>)
    ensures Count(sales, One) == |sales|
  {
    if sales != [] {
      OneEach(sales[..|sales| - 1]);
    }
  }

  /** A breakdown of the sales by terminal or by cashier, printed in any order, adds up to the report. */
  lemma {:induction false} SharesAddUp<K(!new)>(sales: seq<Sale>, key: Sale -> K, keys: seq<K>)
    requires Distinct(keys) && Elements(keys) == SharesBy(sales, key).gross.Keys
    ensures SharesBy(sales, key).count.Keys == SharesBy(sales, key).gross.Keys
    ensures Listed(SharesBy(sales, key).count, keys) == |sales|
    ensures Listed(SharesBy(sales, key).gross, keys) == Count(sales, Charged)
  {
    hide Charged;
    OneEach(sales);
    SameKeys(sales, key, One, Charged);
    FiledAddsUp(sales, key, One, keys);
    FiledAddsUp(sales, key, Charged, keys);
  }

  /** The rates, printed in any order: base plus tax is the total, the taxes are the tax of the report, and the
      totals are off the gross by at most half a cent per sale. */
  lemma {:induction false} RatesAddUp(sales: seq<Sale>, rates: seq<Decimal>)
    requires Distinct(rates) && Elements(rates) == ByRate(Rows(sales)).total.Keys
    ensures var r := ByRate(Rows(sales));
            && r.base.Keys == r.tax.Keys == r.total.Keys
            && Listed(r.tax, rates) == Count(Rows(sales), RowTax)
            && Listed(r.base, rates) + Listed(r.tax, rates) == Listed(r.total, rates)
            && -|sales| * CENT <= 2 * (Count(sales, Charged) - Listed(r.total, rates)) <= |sales| * CENT
  {
    var rows := Rows(sales);
    SameKeys(rows, RowRate, RowBase, RowTotal);
    SameKeys(rows, RowRate, RowTax, RowTotal);
    FiledAddsUp(rows, RowRate, RowBase, rates);
    FiledAddsUp(rows, RowRate, RowTax, rates);
    FiledAddsUp(rows, RowRate, RowTotal, rates);
    BaseAndTax(rows);
    LinesAreCloseToGross(sales);
  }

  /** The first and last ticket of a report are its least and greatest numbers, and there are none without sales. */
  lemma {:induction false} TicketRange(sales: seq<Sale>)
    ensures LeastNumber(sales).Some? <==> sales != []
    ensures GreatestNumber(sales).Some? <==> sales != []
    ensures sales != [] ==>
              && (forall s :: s in sales ==> LeastNumber(sales).value <= s.number <= GreatestNumber(sales).value)
              && (exists s :: s in sales && s.number == LeastNumber(sales).value)
              && (exists s :: s in sales && s.number == GreatestNumber(sales).value)
  {
    if sales != [] {
      var front, last := sales[..|sales| - 1], sales[|sales| - 1];
      TicketRange(front);
      assert sales == front + [last];
      assert last in sales && forall s :: s in front ==> s in sales;
    }
  }

  /** What was refunded by cash, card, other and unknown methods adds up to what was refunded. */
  lemma {:induction false} RefundsAddUp(refunds: seq<Refund>)
    ensures Group(refunds, RefundMethod, RefundAmount, Some(Cash)) + Group(refunds, RefundMethod, RefundAmount, Some(Card))
            + Group(refunds, RefundMethod, RefundAmount, Some(Other)) + Group(refunds, RefundMethod, RefundAmount, None)
         == Count(refunds, RefundAmount)
  {
    if refunds != [] {
      RefundsAddUp(refunds[..|refunds| - 1]);
      match refunds[|refunds| - 1].means
      case None =>
      case Some(Cash) =>
      case Some(Card) =>
      case Some(Other) =>
    }
  }

  lemma {:induction false} RowsOfOneSale(id: int, inclusive: bool, lines: seq<SaleLine>, other: int)
    ensures Group(RowsOf(id, inclusive, lines), RowSale, RowTotal, other)
         == (if id == other then Count(RowsOf(id, inclusive, lines), RowTotal) else 0)
  {
    hide RowTotal;
    if lines != [] {
      RowsOfOneSale(id, inclusive, lines[..|lines| - 1], other);
    }
  }

  lemma {:induction false} GroupAppend<T, K>(a: seq<T>, b: seq<T>, key: T -> K, weight: T -> int, k: K)
    ensures Group(a + b, key, weight, k) == Group(a, key, weight, k) + Group(b, key, weight, k)
  {
    if b == [] {
      assert a + b == a;
    } else {
      GroupAppend(a, b[..|b| - 1], key, weight, k);
      assert (a + b)[..|a + b| - 1] == a + b[..|b| - 1];
    }
  }

  lemma {:induction false} OtherSalesRows(sales: seq<Sale>, id: int)
    requires forall s :: s in sales ==> s.id != id
    ensures Group(Rows(sales), RowSale, RowTotal, id) == 0
  {
    hide RowTotal;
    if sales != [] {
      var s := sales[|sales| - 1];
      assert s in sales;
      OtherSalesRows(sales[..|sales| - 1], id);
      GroupAppend(Rows(sales[..|sales| - 1]), RowsOf(s.id, s.inclusive, s.lines), RowSale, RowTotal, id);
      RowsOfOneSale(s.id, s.inclusive, s.lines, id);
    }
  }

  ghost predicate DistinctIds(sales: seq<Sale>) {
    forall i, j :: 0 <= i < j < |sales| ==> sales[i].id != sales[j].id
  }

  /** The rows filed under a sale id are that sale's own lines. */
  lemma {:induction false} RowsBySale(sales: seq<Sale>, i: nat)
    requires DistinctIds(sales) && i < |sales|
    ensures Group(Rows(sales), RowSale, RowTotal, sales[i].id)
         == Count(RowsOf(sales[i].id, sales[i].inclusive, sales[i].lines), RowTotal)
  {
    hide RowTotal;
    var last := |sales| - 1;
    var s, id := sales[last], sales[i].id;
    GroupAppend(Rows(sales[..last]), RowsOf(s.id, s.inclusive, s.lines), RowSale, RowTotal, id);
    RowsOfOneSale(s.id, s.inclusive, s.lines, id);
    if i == last {
      OtherSalesRows(sales[..last], id);
    } else {
      RowsBySale(sales[..last], i);
    }
  }

  function Added<K(==)>(accounts: map<K, int>, k: K, amount: int): map<K, int> {
    accounts[k := (if k in accounts then accounts[k] else 0) + amount]
  }

  /** The loop over the sale lines: taxes, discounts, rates and the unrounded total of every sale. */
  method AccumulateRows(rows: seq<Row>) returns (tax: Micro, discount: Micro, rates: Rates, bySale: map<int, Micro>)
    ensures tax == Count(rows, RowTax) && discount == Count(rows, RowDiscount)
    ensures rates == ByRate(rows) && bySale == Filed(rows, RowSale, RowTotal)
  {
    hide RowTax, RowDiscount, RowTotal, RowBase, RowRate, RowSale, Filed, Count;
    tax, discount := 0, 0;
    rates, bySale := Rates(map[], map[], map[]), map[];
    NothingFiled(rows, RowRate, RowBase);
    NothingFiled(rows, RowRate, RowTax);
    NothingFiled(rows, RowRate, RowTotal);
    NothingFiled(rows, RowSale, RowTotal);
    NothingFiled(rows, RowRate, RowDiscount);
    for i := 0 to |rows|
      invariant tax == Count(rows[..i], RowTax) && discount == Count(rows[..i], RowDiscount)
      invariant rates == ByRate(rows[..i])
      invariant bySale == Filed(rows[..i], RowSale, RowTotal)
    {
      var r := rows[i];
      CountStep(rows, RowTax, i);
      CountStep(rows, RowDiscount, i);
      FiledStep(rows, RowRate, RowBase, i);
      FiledStep(rows, RowRate, RowTax, i);
      FiledStep(rows, RowRate, RowTotal, i);
      FiledStep(rows, RowSale, RowTotal, i);
      tax, discount := tax + RowTax(r), discount + RowDiscount(r);
      bySale := Added(bySale, RowSale(r), RowTotal(r));
      rates := Rates(Added(rates.base, RowRate(r), RowBase(r)), Added(rates.tax, RowRate(r), RowTax(r)),
                     Added(rates.total, RowRate(r), RowTotal(r)));
    }
    assert rows[..|rows|] == rows;
  }

  /** The tender dictionary of one sale. */
  ghost function TenderedBy(payments: seq<Payment>): map<Method, Micro> {
    map m | m in METHODS :: Count(payments, AmountBy(m))
  }

  lemma TenderStep(payments: seq<Payment>, i: nat)
    requires i < |payments|
    ensures var before, p := TenderedBy(payments[..i]), payments[i];
            TenderedBy(payments[..i + 1]) == before[p.means := before[p.means] + p.amount]
  {
    CountStep(payments, AmountBy(Cash), i);
    CountStep(payments, AmountBy(Card), i);
    CountStep(payments, AmountBy(Other), i);
  }

  /** The loop over the tenders of one sale, and the change taken out of its cash. */
  method AccumulateTenders(s: Sale, charged: Micro) returns (kept: map<Method, Micro>)
    requires charged == Charged(s)
    ensures kept == map m | m in METHODS :: Collected(s, m)
  {
    hide Charged, Count;
    var tendered: map<Method, Micro> := map[Cash := 0, Card := 0, Other := 0];
    assert tendered == TenderedBy(s.payments[..0]) by {
      NothingFiled(s.payments, p => 0, AmountBy(Cash));
      NothingFiled(s.payments, p => 0, AmountBy(Card));
      NothingFiled(s.payments, p => 0, AmountBy(Other));
    }
    for i := 0 to |s.payments|
      invariant tendered == TenderedBy(s.payments[..i])
    {
      TenderStep(s.payments, i);
      tendered := tendered[s.payments[i].means := tendered[s.payments[i].means] + s.payments[i].amount];
    }
    assert s.payments[..|s.payments|] == s.payments;
    var over := tendered[Cash] + tendered[Card] + tendered[Other] - charged;
    var change := if over > 0 then over else 0;
    kept := tendered[Cash := tendered[Cash] - change];
  }

  ghost function CollectedIn(sales: seq<Sale>): map<Method, Micro> {
    map m | m in METHODS :: Count(sales, CollectedBy(m))
  }

  lemma CollectedStep(sales: seq<Sale>, i: nat)
    requires i < |sales|
    ensures CollectedIn(sales[..i + 1]) == map m | m in METHODS :: CollectedIn(sales[..i])[m] + Collected(sales[i], m)
  {
    hide Collected;
    CountStep(sales, CollectedBy(Cash), i);
    CountStep(sales, CollectedBy(Card), i);
    CountStep(sales, CollectedBy(Other), i);
  }

  /** A sale with no lines has no entry among the row totals; any other has its own. */
  lemma ChargedFromRows(sales: seq<Sale>, i: nat)
    requires DistinctIds(sales) && i < |sales|
    ensures var bySale, id := Filed(Rows(sales), RowSale, RowTotal), sales[i].id;
            Charged(sales[i]) == Payable(if id in bySale then bySale[id] else 0)
  {
    hide RowTotal, Payable;
    var rows, id := Rows(sales), sales[i].id;
    RowsBySale(sales, i);
    RowsAddUp(id, sales[i].inclusive, sales[i].lines);
    if id !in Filed(rows, RowSale, RowTotal) {
      forall r | r in rows ensures RowSale(r) != id {
        var n :| 0 <= n < |rows| && rows[n] == r;
        assert RowSale(rows[n]) in (set j | 0 <= j < |rows| :: RowSale(rows[j]));
      }
      AbsentKey(rows, RowSale, RowTotal, id);
    }
  }

  /** Every sale is rounded to cents on its own, before anything is added up. */
  method RoundSales(sales: seq<Sale>, bySale: map<int, Micro>) returns (gross: Micro, charged: map<int, Micro>)
    requires DistinctIds(sales) && bySale == Filed(Rows(sales), RowSale, RowTotal)
    ensures gross == Count(sales, Charged)
    ensures forall s :: s in sales ==> s.id in charged && charged[s.id] == Charged(s)
  {
    hide Charged, Filed, Count, RowTotal, RowSale;
    gross, charged := 0, map[];
    NothingFiled(sales, TerminalOf, Charged);
    for i := 0 to |sales|
      invariant gross == Count(sales[..i], Charged)
      invariant forall j :: 0 <= j < i ==> sales[j].id in charged && charged[sales[j].id] == Charged(sales[j])
    {
      var id := sales[i].id;
      var amount := Payable(if id in bySale then bySale[id] else 0);
      ChargedFromRows(sales, i);
      CountStep(sales, Charged, i);
      gross, charged := gross + amount, charged[id := amount];
    }
    assert sales[..|sales|] == sales;
  }

  /** What every sale left in the till, by method. */
  method AccumulateCollected(sales: seq<Sale>, charged: map<int, Micro>) returns (collected: map<Method, Micro>)
    requires forall s :: s in sales ==> s.id in charged && charged[s.id] == Charged(s)
    ensures collected == CollectedIn(sales)
  {
    hide Charged, Collected, Count;
    collected := map[Cash := 0, Card := 0, Other := 0];
    NothingFiled(sales, CashierOf, CollectedBy(Cash));
    NothingFiled(sales, CashierOf, CollectedBy(Card));
    NothingFiled(sales, CashierOf, CollectedBy(Other));
    for i := 0 to |sales|
      invariant collected == CollectedIn(sales[..i])
    {
      assert sales[i] in sales;
      var kept := AccumulateTenders(sales[i], charged[sales[i].id]);
      CollectedStep(sales, i);
      collected := map m | m in METHODS :: collected[m] + kept[m];
    }
    assert sales[..|sales|] == sales;
  }

  /** Sales and gross by terminal and by cashier. */
  method AccumulateShares(sales: seq<Sale>, charged: map<int, Micro>)
    returns (terminals: Shares<Option<int>>, cashiers: Shares<(Option<int>, string)>)
    requires forall s :: s in sales ==> s.id in charged && charged[s.id] == Charged(s)
    ensures terminals == SharesBy(sales, TerminalOf) && cashiers == SharesBy(sales, CashierOf)
  {
    hide Charged, Filed;
    terminals, cashiers := Shares(map[], map[]), Shares(map[], map[]);
    NothingFiled(sales, TerminalOf, One);
    NothingFiled(sales, TerminalOf, Charged);
    NothingFiled(sales, CashierOf, One);
    NothingFiled(sales, CashierOf, Charged);
    for i := 0 to |sales|
      invariant terminals == SharesBy(sales[..i], TerminalOf) && cashiers == SharesBy(sales[..i], CashierOf)
    {
      var s := sales[i];
      assert s in sales;
      FiledStep(sales, TerminalOf, One, i);
      FiledStep(sales, TerminalOf, Charged, i);
      FiledStep(sales, CashierOf, One, i);
      FiledStep(sales, CashierOf, Charged, i);
      terminals := Shares(Added(terminals.count, s.terminal, 1), Added(terminals.gross, s.terminal, charged[s.id]));
      cashiers := Shares(Added(cashiers.count, s.cashier, 1), Added(cashiers.gross, s.cashier, charged[s.id]));
    }
    assert sales[..|sales|] == sales;
  }

  /** Refunds leave the till by their own method, or by none recorded. */
  method AccumulateRefunds(refunds: seq<Refund>) returns (refunded: Micro, refundedBy: map<Option<Method>, Micro>)
    ensures refunded == Count(refunds, RefundAmount)
    ensures refundedBy == map k | k in REFUND_KEYS :: Group(refunds, RefundMethod, RefundAmount, k)
  {
    refunded, refundedBy := 0, map k | k in REFUND_KEYS :: 0;
    for i := 0 to |refunds|
      invariant refunded == Count(refunds[..i], RefundAmount)
      invariant refundedBy == map k | k in REFUND_KEYS :: Group(refunds[..i], RefundMethod, RefundAmount, k)
    {
      var r := refunds[i];
      CountStep(refunds, RefundAmount, i);
      forall k ensures Group(refunds[..i + 1], RefundMethod, RefundAmount, k)
                       == Group(refunds[..i], RefundMethod, RefundAmount, k) + (if r.means == k then r.amount else 0)
      {
        GroupStep(refunds, RefundMethod, RefundAmount, i, k);
      }
      assert r.means in REFUND_KEYS by {
        match r.means case None => case Some(m) => match m case Cash => case Card => case Other =>
      }
      refunded := refunded + r.amount;
      refundedBy := refundedBy[r.means := refundedBy[r.means] + r.amount];
    }
    assert refunds[..|refunds|] == refunds;
  }

  /** The whole report. */
  method ComputeTotals(sales: seq<Sale>, refunds: seq<Refund>) returns (z: Totals)
    requires DistinctIds(sales)
    ensures z == TotalsOf(sales, refunds)
  {
    var tax, discount, rates, bySale := AccumulateRows(Rows(sales));
    var gross, charged := RoundSales(sales, bySale);
    var collected := AccumulateCollected(sales, charged);
    var refunded, refundedBy := AccumulateRefunds(refunds);
    var terminals, cashiers := AccumulateShares(sales, charged);
    z := Totals(|sales|, gross, tax, discount, collected, rates, terminals, cashiers,
                LeastNumber(sales), GreatestNumber(sales), |refunds|, refunded, refundedBy);
  }
}
