/** The figures of a Z once more, straight from the sales: nested sums over their lines, payments and refunds. */
module ZFigures {
  import opened Money
  import opened SaleLines
  import opened Sums
  import opened ZTotals

  /** An amount of every line, added up per sale. */
  function PerLine(amount: (Sale, SaleLine) -> int): Sale -> int {
    (s: Sale) => Count(s.lines, (l: SaleLine) => amount(s, l))
  }

  function OverLines(sales: seq<Sale>, amount: (Sale, SaleLine) -> int): int { Count(sales, PerLine(amount)) }

  function PerPayment(amount: Payment -> int): Sale -> int { (s: Sale) => Count(s.payments, amount) }

  function OverPayments(sales: seq<Sale>, amount: Payment -> int): int { Count(sales, PerPayment(amount)) }

  function LineTax(s: Sale, l: SaleLine): Micro { LineTotals(l, s.inclusive).tax }

  function LineDiscount(s: Sale, l: SaleLine): Micro { LineTotals(l, s.inclusive).discount }

  function TaxAt(rate: Decimal): (Sale, SaleLine) -> Micro {
    (s: Sale, l: SaleLine) => if l.taxRate == rate then LineTotals(l, s.inclusive).tax else 0
  }

  function TotalAt(rate: Decimal): (Sale, SaleLine) -> Micro {
    (s: Sale, l: SaleLine) => if l.taxRate == rate then LineTotals(l, s.inclusive).total else 0
  }

  function NetAt(rate: Decimal): (Sale, SaleLine) -> Micro {
    (s: Sale, l: SaleLine) =>
      if l.taxRate == rate then LineTotals(l, s.inclusive).total - LineTotals(l, s.inclusive).tax else 0
  }

  function PaidBy(means: Method): Payment -> Micro { (p: Payment) => if p.means == means then p.amount else 0 }

  function Paid(p: Payment): Micro { p.amount }

  function LineTotal(inclusive: bool): SaleLine -> Micro { (l: SaleLine) => LineTotals(l, inclusive).total }

  /** One rounding to cents for the whole sale. */
  function Charge(s: Sale): Micro { Payable(Count(s.lines, LineTotal(s.inclusive))) }

  /** What was handed back: all that was paid beyond the charge. */
  function HandedBack(s: Sale): Micro {
    var paid := Count(s.payments, Paid);
    if paid > Charge(s) then paid - Charge(s) else 0
  }

  function AtTerminal(terminal: Option<int>): Sale -> int { (s: Sale) => if s.terminal == terminal then 1 else 0 }

  function ChargedAt(terminal: Option<int>): Sale -> Micro { (s: Sale) => if s.terminal == terminal then Charge(s) else 0 }

  function ByCashier(cashier: (Option<int>, string)): Sale -> int { (s: Sale) => if s.cashier == cashier then 1 else 0 }

  function ChargedBy(cashier: (Option<int>, string)): Sale -> Micro {
    (s: Sale) => if s.cashier == cashier then Charge(s) else 0
  }

  function Refunded(r: Refund): Micro { r.amount }

  function RefundedBy(means: Option<Method>): Refund -> Micro { (r: Refund) => if r.means == means then r.amount else 0 }

  lemma {:induction false} SameCount<T>(items: seq<T>, a: T -> int, b: T -> int)
    requires forall x :: x in items ==> a(x) == b(x)
    ensures Count(items, a) == Count(items, b)
  {
    if items != [] {
      assert items[|items| - 1] in items;
      SameCount(items[..|items| - 1], a, b);
    }
  }

  lemma {:induction false} SameGroup<T, K>(items: seq<T>, key: T -> K, weight: T -> int, k: K, picked: T -> int)
    requires forall x :: x in items ==> picked(x) == if key(x) == k then weight(x) else 0
    ensures Group(items, key, weight, k) == Count(items, picked)
  {
    if items != [] {
      assert items[|items| - 1] in items;
      SameGroup(items[..|items| - 1], key, weight, k, picked);
    }
  }

  lemma {:induction false} RowsOfLines(s: Sale, lines: seq<SaleLine>, weight: Row -> int, amount: SaleLine -> int)
    requires forall l :: l in lines ==> weight(Row(s.id, s.inclusive, l)) == amount(l)
    ensures Count(RowsOf(s.id, s.inclusive, lines), weight) == Count(lines, amount)
  {
    if lines != [] {
      assert lines[|lines| - 1] in lines;
      RowsOfLines(s, lines[..|lines| - 1], weight, amount);
    }
  }

  /** The report's joined rows are the lines of the sales. */
  lemma {:induction false} RowsAreLines(sales: seq<Sale>, weight: Row -> int, amount: (Sale, SaleLine) -> int)
    requires forall s: Sale, l :: weight(Row(s.id, s.inclusive, l)) == amount(s, l)
    ensures Count(Rows(sales), weight) == OverLines(sales, amount)
  {
    if sales != [] {
      var front, s := sales[..|sales| - 1], sales[|sales| - 1];
      RowsAreLines(front, weight, amount);
      CountAppend(Rows(front), RowsOf(s.id, s.inclusive, s.lines), weight);
      RowsOfLines(s, s.lines, weight, (l: SaleLine) => amount(s, l));
      assert Count(s.lines, (l: SaleLine) => amount(s, l)) == PerLine(amount)(s);
    }
  }

  ghost predicate HasLine(sales: seq<Sale>, r: Row) {
    exists s :: s in sales && s.id == r.sale && s.inclusive == r.inclusive && r.line in s.lines
  }

  lemma {:induction false} RowsOfHold(s: Sale, lines: seq<SaleLine>, r: Row)
    ensures r in RowsOf(s.id, s.inclusive, lines) <==> r.sale == s.id && r.inclusive == s.inclusive && r.line in lines
  {
    if lines != [] {
      RowsOfHold(s, lines[..|lines| - 1], r);
      assert lines == lines[..|lines| - 1] + [lines[|lines| - 1]];
    }
  }

  lemma {:induction false} RowsHold(sales: seq<Sale>, r: Row)
    ensures r in Rows(sales) <==> HasLine(sales, r)
  {
    if sales != [] {
      var front, s := sales[..|sales| - 1], sales[|sales| - 1];
      RowsHold(front, r);
      RowsOfHold(s, s.lines, r);
      assert sales == front + [s];
      assert HasLine(sales, r) <==>
               HasLine(front, r) || (s.id == r.sale && s.inclusive == r.inclusive && r.line in s.lines);
    }
  }

  ghost predicate Sold(sales: seq<Sale>, rate: Decimal) {
    exists s, l :: s in sales && l in s.lines && l.taxRate == rate
  }

  lemma RatesSold(sales: seq<Sale>, weight: Row -> int, rate: Decimal)
    ensures rate in Filed(Rows(sales), RowRate, weight) <==> Sold(sales, rate)
  {
    var rows := Rows(sales);
    if Sold(sales, rate) {
      var s, l :| s in sales && l in s.lines && l.taxRate == rate;
      RowsHold(sales, Row(s.id, s.inclusive, l));
      var i :| 0 <= i < |rows| && rows[i] == Row(s.id, s.inclusive, l);
      assert RowRate(rows[i]) == rate;
    }
    if rate in Filed(rows, RowRate, weight) {
      var i :| 0 <= i < |rows| && RowRate(rows[i]) == rate;
      RowsHold(sales, rows[i]);
    }
  }

  lemma GroupAtRate(sales: seq<Sale>, rate: Decimal)
    ensures Group(Rows(sales), RowRate, RowTax, rate) == OverLines(sales, TaxAt(rate))
    ensures Group(Rows(sales), RowRate, RowTotal, rate) == OverLines(sales, TotalAt(rate))
    ensures Group(Rows(sales), RowRate, RowBase, rate) == OverLines(sales, NetAt(rate))
  {
    hide LineTotals;
    var tax := (r: Row) => if r.line.taxRate == rate then LineTotals(r.line, r.inclusive).tax else 0;
    var total := (r: Row) => if r.line.taxRate == rate then LineTotals(r.line, r.inclusive).total else 0;
    var net := (r: Row) =>
      if r.line.taxRate == rate then LineTotals(r.line, r.inclusive).total - LineTotals(r.line, r.inclusive).tax else 0;
    SameGroup(Rows(sales), RowRate, RowTax, rate, tax);
    SameGroup(Rows(sales), RowRate, RowTotal, rate, total);
    SameGroup(Rows(sales), RowRate, RowBase, rate, net);
    RowsAreLines(sales, tax, TaxAt(rate));
    RowsAreLines(sales, total, TotalAt(rate));
    RowsAreLines(sales, net, NetAt(rate));
  }

  /** By rate: exactly the rates that were sold, each with the base, the tax and the total of its lines. */
  lemma RatesSpelledOut(sales: seq<Sale>, refunds: seq<Refund>)
    ensures var r := TotalsOf(sales, refunds).byRate;
            && (forall rate :: (rate in r.base <==> Sold(sales, rate)) && (rate in r.tax <==> Sold(sales, rate))
                               && (rate in r.total <==> Sold(sales, rate)))
            && (forall rate :: Sold(sales, rate) ==>
                  && r.base[rate] == OverLines(sales, NetAt(rate)) && r.tax[rate] == OverLines(sales, TaxAt(rate))
                  && r.total[rate] == OverLines(sales, TotalAt(rate)))
  {
    hide RowTax, RowTotal, RowBase, RowRate, Sold, OverLines, Group, Count, SharesBy;
    var r := TotalsOf(sales, refunds).byRate;
    forall rate
      ensures (rate in r.base <==> Sold(sales, rate)) && (rate in r.tax <==> Sold(sales, rate))
      ensures rate in r.total <==> Sold(sales, rate)
      ensures Sold(sales, rate) ==>
                && r.base[rate] == OverLines(sales, NetAt(rate)) && r.tax[rate] == OverLines(sales, TaxAt(rate))
                && r.total[rate] == OverLines(sales, TotalAt(rate))
    {
      RatesSold(sales, RowBase, rate);
      RatesSold(sales, RowTax, rate);
      RatesSold(sales, RowTotal, rate);
      GroupAtRate(sales, rate);
    }
  }

  /** Tax and discount are those of all the lines, before any rounding to cents. */
  lemma TaxSpelledOut(sales: seq<Sale>)
    ensures Count(Rows(sales), RowTax) == OverLines(sales, LineTax)
    ensures Count(Rows(sales), RowDiscount) == OverLines(sales, LineDiscount)
  {
    hide LineTotals;
    RowsAreLines(sales, RowTax, LineTax);
    RowsAreLines(sales, RowDiscount, LineDiscount);
  }

  lemma {:induction false} RawTotalIsCount(lines: seq<SaleLine>, inclusive: bool)
    ensures RawTotal(lines, inclusive) == Count(lines, LineTotal(inclusive))
  {
    hide LineTotals;
    if lines != [] { RawTotalIsCount(lines[..|lines| - 1], inclusive); }
  }

  lemma ChargeIsCharged(s: Sale)
    ensures Charged(s) == Charge(s)
  {
    RawTotalIsCount(s.lines, s.inclusive);
  }

  lemma {:induction false} PaidInAll(payments: seq<Payment>)
    ensures Count(payments, PaidBy(Cash)) + Count(payments, PaidBy(Card)) + Count(payments, PaidBy(Other)) == Count(payments, Paid)
  {
    if payments != [] { PaidInAll(payments[..|payments| - 1]); }
  }

  lemma CollectedFromOne(s: Sale)
    ensures Collected(s, Card) == Count(s.payments, PaidBy(Card)) && Collected(s, Other) == Count(s.payments, PaidBy(Other))
    ensures Collected(s, Cash) == Count(s.payments, PaidBy(Cash)) - HandedBack(s)
  {
    hide Charged, Charge;
    ChargeIsCharged(s);
    PaidInAll(s.payments);
    SameCount(s.payments, AmountBy(Cash), PaidBy(Cash));
    SameCount(s.payments, AmountBy(Card), PaidBy(Card));
    SameCount(s.payments, AmountBy(Other), PaidBy(Other));
  }

  /** Card and other payments stay as they were paid; the cash is what was paid in cash less all that was handed back. */
  lemma {:induction false} CollectedSpelledOut(sales: seq<Sale>)
    ensures Count(sales, CollectedBy(Card)) == OverPayments(sales, PaidBy(Card))
    ensures Count(sales, CollectedBy(Other)) == OverPayments(sales, PaidBy(Other))
    ensures Count(sales, CollectedBy(Cash)) == OverPayments(sales, PaidBy(Cash)) - Count(sales, HandedBack)
  {
    hide Collected, HandedBack;
    if sales != [] {
      CollectedSpelledOut(sales[..|sales| - 1]);
      CollectedFromOne(sales[|sales| - 1]);
    }
  }

  lemma FiledKeys<T, K>(items: seq<T>, key: T -> K, weight: T -> int, k: K)
    ensures k in Filed(items, key, weight) <==> exists x :: x in items && key(x) == k
  {
    if x :| x in items && key(x) == k {
      var i :| 0 <= i < |items| && items[i] == x;
      assert key(items[i]) == k;
    }
    if k in Filed(items, key, weight) {
      var i :| 0 <= i < |items| && key(items[i]) == k;
      assert items[i] in items;
    }
  }

  lemma ShareOf<K(!new)>(sales: seq<Sale>, key: Sale -> K, k: K, one: Sale -> int, charge: Sale -> int)
    requires forall s :: s in sales ==> one(s) == (if key(s) == k then 1 else 0)
    requires forall s :: s in sales ==> charge(s) == if key(s) == k then Charge(s) else 0
    ensures var share := SharesBy(sales, key);
            && (k in share.count <==> exists s :: s in sales && key(s) == k) && (k in share.gross <==> k in share.count)
            && (k in share.count ==> share.count[k] == Count(sales, one) && share.gross[k] == Count(sales, charge))
  {
    hide Charged, Charge;
    forall s: Sale ensures Charged(s) == Charge(s) { ChargeIsCharged(s); }
    FiledKeys(sales, key, One, k);
    FiledKeys(sales, key, Charged, k);
    SameGroup(sales, key, One, k, one);
    SameGroup(sales, key, Charged, k, charge);
  }

  /** By terminal: exactly those that sold, each with its number of sales and what they were charged. */
  lemma TerminalSpelledOut(sales: seq<Sale>, refunds: seq<Refund>, k: Option<int>)
    ensures var share := TotalsOf(sales, refunds).byTerminal;
            && (k in share.count <==> exists s :: s in sales && s.terminal == k) && (k in share.gross <==> k in share.count)
            && (k in share.count ==>
                  share.count[k] == Count(sales, AtTerminal(k)) && share.gross[k] == Count(sales, ChargedAt(k)))
  {
    hide Charge, Charged, Count, Group, Filed, SharesBy, ByRate;
    ShareOf(sales, TerminalOf, k, AtTerminal(k), ChargedAt(k));
  }

  /** By cashier alike: the identity and the name at the time. */
  lemma CashierSpelledOut(sales: seq<Sale>, refunds: seq<Refund>, k: (Option<int>, string))
    ensures var share := TotalsOf(sales, refunds).byCashier;
            && (k in share.count <==> exists s :: s in sales && s.cashier == k) && (k in share.gross <==> k in share.count)
            && (k in share.count ==>
                  share.count[k] == Count(sales, ByCashier(k)) && share.gross[k] == Count(sales, ChargedBy(k)))
  {
    hide Charge, Charged, Count, Group, Filed, SharesBy, ByRate;
    ShareOf(sales, CashierOf, k, ByCashier(k), ChargedBy(k));
  }

  lemma RefundsSpelledOut(refunds: seq<Refund>, means: Option<Method>)
    ensures Count(refunds, RefundAmount) == Count(refunds, Refunded)
    ensures Group(refunds, RefundMethod, RefundAmount, means) == Count(refunds, RefundedBy(means))
  {
    SameCount(refunds, RefundAmount, Refunded);
    SameGroup(refunds, RefundMethod, RefundAmount, means, RefundedBy(means));
  }

  /** The amounts of the report: each sale's charge, and the taxes and discounts of all lines. */
  lemma AmountsSpelledOut(sales: seq<Sale>, refunds: seq<Refund>)
    ensures var t := TotalsOf(sales, refunds);
            && t.count == |sales| && t.gross == Count(sales, Charge)
            && t.tax == OverLines(sales, LineTax) && t.discount == OverLines(sales, LineDiscount)
            && t.refunds == |refunds| && t.refunded == Count(refunds, Refunded)
  {
    hide Charged, Charge, RowTax, RowDiscount, OverLines, ByRate, SharesBy, Count, Rows, Group;
    forall s: Sale ensures Charged(s) == Charge(s) { ChargeIsCharged(s); }
    SameCount(sales, Charged, Charge);
    TaxSpelledOut(sales);
    RefundsSpelledOut(refunds, None);
  }

  /** What each method took in and gave back. Card and other payments stay as they were paid; all change comes out of
      the cash. */
  lemma MethodsSpelledOut(sales: seq<Sale>, refunds: seq<Refund>, means: Option<Method>)
    ensures var t := TotalsOf(sales, refunds);
            && t.collected.Keys == {Cash, Card, Other} && means in t.refundedBy
            && t.collected[Cash] == OverPayments(sales, PaidBy(Cash)) - Count(sales, HandedBack)
            && t.collected[Card] == OverPayments(sales, PaidBy(Card))
            && t.collected[Other] == OverPayments(sales, PaidBy(Other))
            && t.refundedBy[means] == Count(refunds, RefundedBy(means))
  {
    hide Charged, Group, OverPayments, HandedBack, ByRate, SharesBy, Count, Rows;
    var t := TotalsOf(sales, refunds);
    assert means in t.refundedBy by {
      match means case None => case Some(m) => match m case Cash => case Card => case Other =>
    }
    CollectedSpelledOut(sales);
    RefundsSpelledOut(refunds, means);
  }
}
