/** What each transaction at the till commits, whatever runs beside it, and what it commits when nothing stops it. */
module TillCommits {
  import opened Money
  import opened SaleLines
  import opened ZTotals
  import opened Till

  /** Whenever a sale is added it is one sale: the whole cart it replaces, with its terminal and warehouse, paid as
      requested, and nothing else in the database changes. */
  lemma SaleIsTheCart(cal: Calendar, s: State, e: Event)
    requires Coherent(cal) && Reachable(cal, s) && |Next(cal, s, e).db.sales| > |s.db.sales|
    ensures e.Step? && e.tx in s.txs && s.txs[e.tx].request.Checkout? && s.txs[e.tx].request.sale in s.db.drafts
    ensures var tx, after := s.txs[e.tx], Next(cal, s, e).db;
            var draft, c := s.db.drafts[tx.request.sale], after.sales[|s.db.sales|];
            && after == s.db.(drafts := s.db.drafts - {tx.request.sale}, sales := s.db.sales + [c])
            && c.warehouse == draft.warehouse && c.at == tx.now
            && c.sale.id == tx.request.sale && c.sale.lines == draft.lines && c.sale.terminal == draft.terminal
            && c.sale.payments == tx.request.payments && c.sale.cashier == tx.request.cashier
            && c.sale.number == |s.db.sales| + 1
            && tx.content.Some? && c.sale.inclusive == tx.content.value.inclusive
  {
    hide TotalsOf, DayFigures, Settled, Closed, Figures, HighestNumber, HighestZ, Filter, Pending, WarehouseOf, Run, DatabaseOk;
    ReachableKeeps(cal, s);
    if e.Step? && e.tx in s.txs {
      assert TxOk(cal, s.db, s.clock, s.locks, e.tx, s.txs[e.tx]);
    }
  }

  /** The fiscal mode of a checkout is the one in force when it gets the sale's lock, and is not read again. */
  lemma ModeIsReadUnderTheLock(cal: Calendar, s: State, e: Event, t: nat)
    requires Coherent(cal) && Reachable(cal, s)
    requires t in s.txs && t in Next(cal, s, e).txs && s.txs[t].request.Checkout?
    ensures var before, after := s.txs[t], Next(cal, s, e).txs[t];
            && after.request == before.request && after.warehouse == before.warehouse
            && (before.content.Some? ==> after.content == before.content)
            && (before.content.None? && after.content.Some? ==>
                  && SaleLock(before.request.sale) !in s.locks
                  && Holds(Next(cal, s, e).locks, t, SaleLock(before.request.sale))
                  && after.content.value.inclusive == s.db.inclusive)
  {
    hide TotalsOf, DayFigures, Settled, Closed, Figures, HighestNumber, HighestZ, Filter, Pending, WarehouseOf, Run, DatabaseOk,
         Reachable;
    ReachableKeeps(cal, s);
    assert TxOk(cal, s.db, s.clock, s.locks, t, s.txs[t]);
    hide Inv, TxOk;
    if e.Step? && e.tx in s.txs && e.tx != t { OthersStep(cal, s, e.tx, t); }
  }

  lemma OthersStep(cal: Calendar, s: State, u: nat, t: nat)
    requires u in s.txs && t in s.txs && u != t
    ensures var after := Next(cal, s, Step(u)); t in after.txs && after.txs[t] == s.txs[t]
  {
    hide TotalsOf, DayFigures, Settled, Closed, Figures, HighestNumber, HighestZ, Filter, Pending, WarehouseOf;
  }

  /** In every interleaving a checkout that holds its sale holds the cart as it stands: nobody edits it meanwhile. */
  lemma HeldCartIsTheCart(cal: Calendar, s: State, t: nat)
    requires Coherent(cal) && Reachable(cal, s)
    requires t in s.txs && s.txs[t].request.Checkout? && s.txs[t].content.Some?
    ensures var request, sale := s.txs[t].request, s.txs[t].content.value;
            && Holds(s.locks, t, SaleLock(request.sale)) && request.sale in s.db.drafts
            && sale.id == request.sale && sale.lines == s.db.drafts[request.sale].lines
            && sale.terminal == s.db.drafts[request.sale].terminal
            && sale.payments == request.payments && sale.cashier == request.cashier
  {
    hide DayFigures, Settled, Run, DatabaseOk, Closed, NothingAfter;
    ReachableKeeps(cal, s);
    assert TxOk(cal, s.db, s.clock, s.locks, t, s.txs[t]);
  }

  /** A refund is committed as it was requested, in the warehouse of its sale, at the instant its day was tested. */
  lemma RefundIsTheRequest(cal: Calendar, s: State, e: Event)
    requires |Next(cal, s, e).db.refunds| > |s.db.refunds|
    ensures e.Step? && e.tx in s.txs && s.txs[e.tx].request.Return? && s.txs[e.tx].request.refund.Some?
    ensures var tx := s.txs[e.tx];
            Next(cal, s, e).db
              == s.db.(refunds := s.db.refunds + [Refunded(tx.warehouse, tx.now, tx.request.refund.value)])
  {
    hide TotalsOf, DayFigures, Settled, Closed, Figures, HighestNumber, HighestZ, Filter, Pending, WarehouseOf, Run;
  }

  /** A Z is issued for the warehouse asked, for the day of the clock it read, with that whole day's figures. */
  lemma ZIsTheDay(cal: Calendar, s: State, e: Event)
    requires Coherent(cal) && Reachable(cal, s) && |Next(cal, s, e).db.zs| > |s.db.zs|
    ensures e.Step? && e.tx in s.txs && s.txs[e.tx].request.Close?
    ensures var tx := s.txs[e.tx];
            Next(cal, s, e).db
              == s.db.(zs := s.db.zs + [Z(tx.warehouse, tx.number, cal.day(tx.now), tx.now,
                                          DayFigures(cal, s.db, tx.warehouse, cal.day(tx.now)))])
  {
    hide TotalsOf, DayFigures, Settled, Closed, Figures, HighestNumber, HighestZ, Filter, Pending, WarehouseOf, Run, DatabaseOk;
    ReachableKeeps(cal, s);
    if e.Step? && e.tx in s.txs { assert TxOk(cal, s.db, s.clock, s.locks, e.tx, s.txs[e.tx]); }
  }

  // What a transaction does when nothing stands in its way.

  /** The same transaction, step after step. */
  ghost function Alone(cal: Calendar, s: State, t: nat, n: nat): State {
    if n == 0 then s else Next(cal, Alone(cal, s, t, n - 1), Step(t))
  }

  lemma {:induction false} AloneIsARun(cal: Calendar, s: State, t: nat, n: nat)
    ensures Alone(cal, s, t, n) == Run(cal, s, seq(n, i => Step(t)))
  {
    hide Next;
    if n > 0 {
      AloneIsARun(cal, s, t, n - 1);
      assert seq(n, i => Step(t))[..n - 1] == seq(n - 1, i => Step(t));
    }
  }

  /** Nobody holds what the transaction will ask for. */
  ghost predicate Unhindered(s: State, tx: Tx) {
    && tx.phase.Started? && CutLock(tx.warehouse) !in s.locks
    && (!tx.request.Close? ==> SaleLock(tx.request.sale) !in s.locks)
    && (tx.request.Checkout? ==> NumberLock !in s.locks)
  }

  ghost predicate DayIsClosed(cal: Calendar, db: Database, w: int, t: int) {
    exists z :: z in db.zs && z.warehouse == w && z.day == cal.day(t)
  }

  /** What a checkout amounts to: nothing on a closed day, for a missing or empty cart or for tenders that do not settle
      it; otherwise the cart becomes the next sale, now, in the fiscal mode of now. */
  ghost function CheckedOut(cal: Calendar, s: State, tx: Tx): Database
    requires tx.request.Checkout?
  {
    var db, id := s.db, tx.request.sale;
    if DayIsClosed(cal, db, tx.warehouse, s.clock) || id !in db.drafts || db.drafts[id].lines == [] then db
    else
      var sale := Sale(id, db.drafts[id].lines, tx.request.payments, db.inclusive, db.drafts[id].terminal,
                       tx.request.cashier, |db.sales| + 1);
      if !Settled(sale) then db
      else db.(drafts := db.drafts - {id}, sales := db.sales + [Completed(tx.warehouse, s.clock, sale)])
  }

  lemma SettledAnyNumber(sale: Sale, n: nat)
    ensures Settled(sale) <==> Settled(sale.(number := n))
  {}

  lemma AloneNext(cal: Calendar, s: State, t: nat, n: nat)
    ensures Alone(cal, s, t, n + 1) == Next(cal, Alone(cal, s, t, n), Step(t))
  {
    hide Next;
  }

  lemma AloneTwo(cal: Calendar, s: State, t: nat)
    requires t in s.txs && s.txs[t].phase.Started? && CutLock(s.txs[t].warehouse) !in s.locks
    ensures var tx := s.txs[t];
            Alone(cal, s, t, 2) == s.(txs := s.txs[t := tx.(phase := Timed, now := s.clock)],
                                      locks := s.locks[CutLock(tx.warehouse) := t])
  {
    hide TotalsOf, DayFigures, Settled, Closed, Figures, HighestNumber, HighestZ, Filter, Pending, WarehouseOf;
    var tx := s.txs[t];
    var one := Alone(cal, s, t, 1);
    assert one == Next(cal, Alone(cal, s, t, 0), Step(t));
    assert one == s.(txs := s.txs[t := tx.(phase := Cut)], locks := s.locks[CutLock(tx.warehouse) := t]);
    assert Alone(cal, s, t, 2) == Next(cal, one, Step(t));
    assert one.txs[t := tx.(phase := Timed, now := s.clock)] == s.txs[t := tx.(phase := Timed, now := s.clock)];
  }

  lemma {:induction false} AloneEnds(cal: Calendar, s: State, t: nat, n: nat, m: nat)
    requires n <= m && t !in Alone(cal, s, t, n).txs
    ensures Alone(cal, s, t, m) == Alone(cal, s, t, n)
  {
    hide StepCheckout, StepReturn, StepClose;
    if n < m { AloneEnds(cal, s, t, n, m - 1); }
  }

  lemma CheckoutFindsDay(cal: Calendar, x: State, t: nat)
    requires t in x.txs && x.txs[t].request.Checkout? && x.txs[t].phase.Timed?
    ensures Next(cal, x, Step(t)) == if Closed(x.db, x.txs[t].warehouse, cal.day(x.txs[t].now)) then Ended(x, t, x.db)
                                     else Advance(x, t, x.txs[t].(phase := Open))
  {
    hide HighestNumber, Closed, Ended, Advance, Settled;
  }

  /** The cart of a checkout's request as it stands. */
  ghost function CartNow(s: State, request: Request): Sale
    requires request.Checkout? && request.sale in s.db.drafts
  {
    Sale(request.sale, s.db.drafts[request.sale].lines, request.payments, s.db.inclusive, s.db.drafts[request.sale].terminal,
         request.cashier, 0)
  }

  lemma CheckoutFindsCart(cal: Calendar, x: State, t: nat)
    requires t in x.txs && x.txs[t].request.Checkout? && x.txs[t].phase.Open? && SaleLock(x.txs[t].request.sale) !in x.locks
    ensures var tx, id, drafts := x.txs[t], x.txs[t].request.sale, x.db.drafts;
            Next(cal, x, Step(t))
              == if id !in drafts || drafts[id].lines == [] || !Settled(CartNow(x, tx.request)) then Ended(x, t, x.db)
                 else Take(x, t, SaleLock(id), tx.(phase := Held, content := Some(CartNow(x, tx.request))))
  {
    hide HighestNumber, Closed, Ended, Take, Settled;
  }

  lemma CheckoutNumbers(cal: Calendar, x: State, t: nat)
    requires t in x.txs && x.txs[t].request.Checkout? && x.txs[t].phase.Held? && NumberLock !in x.locks
    ensures Next(cal, x, Step(t))
         == Take(x, t, NumberLock, x.txs[t].(phase := Numbered, number := HighestNumber(x.db.sales) + 1))
  {
    hide HighestNumber, Closed, Ended, Take, Settled;
  }

  lemma CheckoutCommits(cal: Calendar, x: State, t: nat)
    requires t in x.txs && x.txs[t].request.Checkout? && x.txs[t].phase.Numbered? && x.txs[t].content.Some?
    ensures var tx, db := x.txs[t], x.db;
            Next(cal, x, Step(t))
              == Ended(x, t, db.(drafts := db.drafts - {tx.request.sale},
                                 sales := db.sales + [Completed(tx.warehouse, tx.now, tx.content.value.(number := tx.number))]))
  {
    hide HighestNumber, Closed, Ended, Take, Settled;
  }

  lemma CommitsCart(cal: Calendar, s: State, t: nat)
    requires t in Alone(cal, s, t, 4).txs
    requires var four := Alone(cal, s, t, 4);
             four.txs[t].request.Checkout? && four.txs[t].phase.Held? && four.txs[t].content.Some? && NumberLock !in four.locks
    ensures var four, six := Alone(cal, s, t, 4), Alone(cal, s, t, 6);
            var tx, db := four.txs[t], four.db;
            && t !in six.txs
            && six.db == db.(drafts := db.drafts - {tx.request.sale},
                             sales := db.sales + [Completed(tx.warehouse, tx.now,
                                                            tx.content.value.(number := HighestNumber(db.sales) + 1))])
  {
    hide HighestNumber, Next, Alone;
    AloneNext(cal, s, t, 4);
    CheckoutNumbers(cal, Alone(cal, s, t, 4), t);
    AloneNext(cal, s, t, 5);
    CheckoutCommits(cal, Alone(cal, s, t, 5), t);
  }

  /** A checkout with nothing in its way does, in six steps, just what it amounts to, and is over. */
  lemma LoneCheckout(cal: Calendar, s: State, t: nat)
    requires Coherent(cal) && Reachable(cal, s)
    requires t in s.txs && s.txs[t].request.Checkout? && Unhindered(s, s.txs[t])
    ensures Alone(cal, s, t, 6).db == CheckedOut(cal, s, s.txs[t]) && t !in Alone(cal, s, t, 6).txs
  {
    hide Settled, HighestNumber, Run, Reachable, Next, Alone;
    var tx, db, id := s.txs[t], s.db, s.txs[t].request.sale;
    ReachableKeeps(cal, s);
    NextNumberIsCount(cal, s);
    hide Inv;
    AloneTwo(cal, s, t);
    var two, three, four := Alone(cal, s, t, 2), Alone(cal, s, t, 3), Alone(cal, s, t, 4);
    AloneNext(cal, s, t, 2);
    CheckoutFindsDay(cal, two, t);
    assert Closed(db, tx.warehouse, cal.day(s.clock)) <==> DayIsClosed(cal, db, tx.warehouse, s.clock);
    hide Closed, DayIsClosed;
    if DayIsClosed(cal, db, tx.warehouse, s.clock) {
      AloneEnds(cal, s, t, 3, 6);
      return;
    }
    AloneNext(cal, s, t, 3);
    CheckoutFindsCart(cal, three, t);
    if id in db.drafts { SettledAnyNumber(CartNow(s, tx.request), |db.sales| + 1); }
    if id !in db.drafts || db.drafts[id].lines == [] || !Settled(CartNow(s, tx.request)) {
      AloneEnds(cal, s, t, 4, 6);
    } else {
      CommitsCart(cal, s, t);
    }
  }

  /** What a return amounts to at the till: nothing for a sale not completed, or for money on a closed day; otherwise its
      refund, if it has one, now. */
  ghost function GivenBack(cal: Calendar, s: State, tx: Tx): Database
    requires tx.request.Return?
  {
    var refund := tx.request.refund;
    if refund.None? || DayIsClosed(cal, s.db, tx.warehouse, s.clock) || !(exists c :: c in s.db.sales && c.sale.id == tx.request.sale)
    then s.db
    else s.db.(refunds := s.db.refunds + [Refunded(tx.warehouse, s.clock, refund.value)])
  }

  lemma LoneReturn(cal: Calendar, s: State, t: nat)
    requires t in s.txs && s.txs[t].request.Return? && Unhindered(s, s.txs[t])
    ensures Alone(cal, s, t, 5).db == GivenBack(cal, s, s.txs[t]) && t !in Alone(cal, s, t, 5).txs
  {
    hide TotalsOf, DayFigures, Settled, Figures, HighestNumber, HighestZ, Filter, Pending, WarehouseOf, Run;
    var tx, db := s.txs[t], s.db;
    AloneTwo(cal, s, t);
    var two, three, four := Alone(cal, s, t, 2), Alone(cal, s, t, 3), Alone(cal, s, t, 4);
    assert three == Next(cal, two, Step(t));
    assert Closed(db, tx.warehouse, cal.day(s.clock)) <==> DayIsClosed(cal, db, tx.warehouse, s.clock);
    if tx.request.refund.Some? && DayIsClosed(cal, db, tx.warehouse, s.clock) {
      AloneEnds(cal, s, t, 3, 5);
      return;
    }
    assert four == Next(cal, three, Step(t));
    if !IsCompleted(db, tx.request.sale) {
      AloneEnds(cal, s, t, 4, 5);
      return;
    }
    assert Alone(cal, s, t, 5) == Next(cal, four, Step(t));
  }

  /** What a close amounts to: nothing while a cart of the warehouse has lines or once its day has a Z; otherwise the next
      Z of the warehouse, now, with the figures of the whole day. */
  ghost function ClosedDay(cal: Calendar, s: State, tx: Tx): Database
    requires tx.request.Close?
  {
    var db, w, d := s.db, tx.warehouse, cal.day(s.clock);
    if (exists id :: id in db.drafts && db.drafts[id].warehouse == w && db.drafts[id].lines != [])
      || DayIsClosed(cal, db, w, s.clock) then db
    else db.(zs := db.zs + [Z(w, |Filter(db.zs, ZFor(w))| + 1, d, s.clock, DayFigures(cal, db, w, d))])
  }

  lemma AloneCounts(cal: Calendar, s: State, t: nat)
    requires Coherent(cal) && Inv(cal, s)
    requires t in s.txs && s.txs[t].request.Close? && Unhindered(s, s.txs[t])
    ensures var tx, three := s.txs[t], Alone(cal, s, t, 3);
            if Pending(s.db, tx.warehouse) then three.db == s.db && t !in three.txs
            else three.db == s.db && t in three.txs
                 && three.txs[t] == tx.(phase := Open, now := s.clock,
                                        totals := Some(DayFigures(cal, s.db, tx.warehouse, cal.day(s.clock))))
  {
    hide TotalsOf, DayFigures, Settled, Figures, Filter, WarehouseOf, DatabaseOk, Pending;
    var tx, db, w := s.txs[t], s.db, s.txs[t].warehouse;
    NothingIsLater(cal, s, w);
    WindowIsDay(cal, db, w, s.clock);
    hide NothingAfter, Inv;
    AloneTwo(cal, s, t);
    assert Alone(cal, s, t, 3) == Next(cal, Alone(cal, s, t, 2), Step(t));
  }

  lemma LoneClose(cal: Calendar, s: State, t: nat)
    requires Coherent(cal) && Reachable(cal, s)
    requires t in s.txs && s.txs[t].request.Close? && Unhindered(s, s.txs[t])
    ensures Alone(cal, s, t, 6).db == ClosedDay(cal, s, s.txs[t]) && t !in Alone(cal, s, t, 6).txs
  {
    hide TotalsOf, DayFigures, Settled, Figures, HighestZ, Filter, WarehouseOf, Run, Reachable;
    var tx, db, w := s.txs[t], s.db, s.txs[t].warehouse;
    ReachableKeeps(cal, s);
    NextZIsCount(cal, s, w);
    AloneCounts(cal, s, t);
    hide Inv;
    assert Pending(db, w) <==> exists id :: id in db.drafts && db.drafts[id].warehouse == w && db.drafts[id].lines != [];
    assert Closed(db, w, cal.day(s.clock)) <==> DayIsClosed(cal, db, w, s.clock);
    hide Pending, Closed, DayIsClosed;
    if Pending(db, w) {
      AloneEnds(cal, s, t, 3, 6);
    } else {
      CommitsCount(cal, s, t);
    }
  }

  /** The last three steps of a close. */
  lemma CloseFinds(cal: Calendar, x: State, t: nat)
    requires t in x.txs && x.txs[t].request.Close? && x.txs[t].phase.Open?
    ensures Next(cal, x, Step(t)) == if Closed(x.db, x.txs[t].warehouse, cal.day(x.txs[t].now)) then Ended(x, t, x.db)
                                     else Advance(x, t, x.txs[t].(phase := Held))
  {
    hide HighestZ, Filter, Closed, Ended, Advance, Figures;
  }

  lemma CloseNumbers(cal: Calendar, x: State, t: nat)
    requires t in x.txs && x.txs[t].request.Close? && x.txs[t].phase.Held?
    ensures var n := HighestZ(Filter(x.db.zs, ZFor(x.txs[t].warehouse))) + 1;
            Next(cal, x, Step(t)) == Advance(x, t, x.txs[t].(phase := Numbered, number := n))
  {
    hide HighestZ, Filter, Closed, Ended, Advance, Figures;
  }

  lemma CloseIssues(cal: Calendar, x: State, t: nat)
    requires t in x.txs && x.txs[t].request.Close? && x.txs[t].phase.Numbered? && x.txs[t].totals.Some?
    ensures var tx := x.txs[t];
            Next(cal, x, Step(t))
              == Ended(x, t, x.db.(zs := x.db.zs + [Z(tx.warehouse, tx.number, cal.day(tx.now), tx.now, tx.totals.value)]))
  {
    hide HighestZ, Filter, Closed, Ended, Advance, Figures;
  }

  lemma CommitsCount(cal: Calendar, s: State, t: nat)
    requires t in Alone(cal, s, t, 3).txs
    requires var tx := Alone(cal, s, t, 3).txs[t]; tx.request.Close? && tx.phase.Open? && tx.totals.Some?
    ensures var three, six := Alone(cal, s, t, 3), Alone(cal, s, t, 6);
            var tx, db := three.txs[t], three.db;
            && t !in six.txs
            && six.db == if Closed(db, tx.warehouse, cal.day(tx.now)) then db
                         else db.(zs := db.zs + [Z(tx.warehouse, HighestZ(Filter(db.zs, ZFor(tx.warehouse))) + 1, cal.day(tx.now),
                                                   tx.now, tx.totals.value)])
  {
    hide HighestZ, Filter, Closed, Next, Alone;
    var three, four, five := Alone(cal, s, t, 3), Alone(cal, s, t, 4), Alone(cal, s, t, 5);
    AloneNext(cal, s, t, 3);
    CloseFinds(cal, three, t);
    if t !in four.txs {
      AloneEnds(cal, s, t, 4, 6);
    } else {
      AloneNext(cal, s, t, 4);
      CloseNumbers(cal, four, t);
      AloneNext(cal, s, t, 5);
      CloseIssues(cal, five, t);
    }
  }

  // What a day holds.

  /** The sales of a day are all those of the warehouse that were charged on it, each as often as it was sold. */
  lemma {:induction false} DayHolds(cal: Calendar, rows: seq<Completed>, w: int, d: int, c: Completed)
    ensures multiset(Filter(rows, SaleOn(cal, w, d)))[c]
         == if c.warehouse == w && cal.day(c.at) == d then multiset(rows)[c] else 0
  {
    if rows != [] {
      var last := |rows| - 1;
      DayHolds(cal, rows[..last], w, d, c);
      assert rows == rows[..last] + [rows[last]];
    }
  }

  lemma {:induction false} DayHoldsRefunds(cal: Calendar, rows: seq<Refunded>, w: int, d: int, r: Refunded)
    ensures multiset(Filter(rows, RefundOn(cal, w, d)))[r]
         == if r.warehouse == w && cal.day(r.at) == d then multiset(rows)[r] else 0
  {
    if rows != [] {
      var last := |rows| - 1;
      DayHoldsRefunds(cal, rows[..last], w, d, r);
      assert rows == rows[..last] + [rows[last]];
    }
  }

  /** The figures are taken from exactly those rows. */
  lemma {:induction false} RowsAreRead(sales: seq<Completed>, refunds: seq<Refunded>)
    ensures Contents(sales) == seq(|sales|, i requires 0 <= i < |sales| => sales[i].sale)
    ensures RefundsOf(refunds) == seq(|refunds|, i requires 0 <= i < |refunds| => refunds[i].refund)
    decreases |sales| + |refunds|
  {
    if sales != [] { RowsAreRead(sales[..|sales| - 1], []); }
    if refunds != [] { RowsAreRead([], refunds[..|refunds| - 1]); }
  }
}
