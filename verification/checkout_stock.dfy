/** The stock half of a checkout: the advisory check before the payment screen, and the loop that decides and spends. */
module CheckoutStock {
  import opened Money
  import opened Sums
  import opened Sorting
  import opened Inventory
  import opened Lots

  /** What a sale line asks of the warehouse. */
  datatype StockLine = StockLine(id: int, product: int, quantity: Decimal, tracksStock: bool, trackLots: bool)

  function ByProduct(a: StockLine, b: StockLine): bool {
    a.product < b.product || (a.product == b.product && a.id <= b.id)
  }

  function Stocked(lines: seq<StockLine>): seq<StockLine> {
    if lines == [] then []
    else
      var before, line := Stocked(lines[..|lines| - 1]), lines[|lines| - 1];
      if line.tracksStock then before + [line] else before
  }

  function SaleOf(line: StockLine, place: Place): Movement {
    Movement(Key(line.product, place, None), -line.quantity, Sale)
  }

  /** One line: check everything the place holds of the product, then take it. */
  function Spend(c: Catalog, s: Stock, place: Place, line: StockLine, negative: bool): Outcome<Stock> {
    if Total(s.rows, At(line.product, place)) < line.quantity && !negative then Err(Insufficient)
    else if line.trackLots then Consume(c, s, line.product, place, line.quantity, Sale)
    else Record(c, s, SaleOf(line, place), negative)
  }

  function SpendAll(c: Catalog, s: Stock, place: Place, lines: seq<StockLine>, negative: bool): Outcome<Stock> {
    if lines == [] then Ok(s)
    else match SpendAll(c, s, place, lines[..|lines| - 1], negative)
      case Err(e) => Err(e)
      case Ok(t) => Spend(c, t, place, lines[|lines| - 1], negative)
  }

  function Charge(c: Catalog, s: Stock, place: Place, lines: seq<StockLine>, negative: bool): Outcome<Stock> {
    SpendAll(c, s, place, Sort(Stocked(lines), ByProduct), negative)
  }

  /** Lines are charged by product, then by id, however they were scanned: the order in which their balances are locked. */
  lemma LinesAscend(lines: seq<StockLine>)
    ensures var s := Sort(Stocked(lines), ByProduct);
            forall i, j :: 0 <= i < j < |s| ==>
              s[i].product <= s[j].product && (s[i].product == s[j].product ==> s[i].id <= s[j].id)
  {
    hide Stocked;
    SortIsSorted(Stocked(lines), ByProduct);
  }

  function Wanted(product: int): StockLine -> Decimal {
    (line: StockLine) => if line.tracksStock && line.product == product then line.quantity else 0.0
  }

  function Demand(lines: seq<StockLine>, product: int): Decimal { Sum(lines, Wanted(product)) }

  /** The advisory rule: of each product, all that the sale wants of it is there. */
  ghost predicate Covered(rows: seq<Row>, place: Place, lines: seq<StockLine>) {
    forall i :: 0 <= i < |lines| && lines[i].tracksStock ==>
      Total(rows, At(lines[i].product, place)) >= Demand(lines, lines[i].product)
  }

  /** The product's rows at the place are of its own kind and none is negative. */
  ghost predicate Sound(c: Catalog, rows: seq<Row>, product: int, place: Place) {
    forall i :: 0 <= i < |rows| && At(product, place)(rows[i].key) ==>
      rows[i].quantity >= 0.0 && CheckContext(c, rows[i].key, true).None?
  }

  /** A stored quantity, of a product whose lot tracking is still as the line says. */
  ghost predicate Known(c: Catalog, place: Place, line: StockLine) {
    && line.quantity >= 0.0 && AtScale(line.quantity)
    && CheckContext(c, Key(line.product, place, None), false).None?
    && line.trackLots == c.lotTracked[line.product]
  }

  ghost predicate Ready(c: Catalog, rows: seq<Row>, place: Place, line: StockLine) {
    Known(c, place, line) && Sound(c, rows, line.product, place)
  }

  // What one line finds and takes.

  lemma {:induction false} LotsAreAll(c: Catalog, rows: seq<Row>, product: int, place: Place)
    requires CheckContext(c, Key(product, place, None), false).None? && c.lotTracked[product]
    requires Sound(c, rows, product, place)
    ensures Available(Joined(c, rows, product, place)) == Total(rows, At(product, place))
  {
    if rows != [] {
      var last := |rows| - 1;
      var r, before := rows[last], Joined(c, rows[..last], product, place);
      LotsAreAll(c, rows[..last], product, place);
      if InStock(c, product, place, r) {
        SumOneMore(before, LotBalance(r.key.lot.value, c.lots[r.key.lot.value].expiry, r.quantity), (b: LotBalance) => b.quantity);
      }
    }
  }

  lemma LotBalancesAreAll(c: Catalog, rows: seq<Row>, product: int, place: Place)
    requires CheckContext(c, Key(product, place, None), false).None? && c.lotTracked[product]
    requires Sound(c, rows, product, place)
    ensures Available(LotBalances(c, rows, product, place)) == Total(rows, At(product, place))
  {
    LotsAreAll(c, rows, product, place);
    SumIsOrderFree(LotBalances(c, rows, product, place), Joined(c, rows, product, place), (b: LotBalance) => b.quantity);
  }

  lemma {:induction false} OneRowIsAll(c: Catalog, rows: seq<Row>, product: int, place: Place)
    requires CheckContext(c, Key(product, place, None), false).None? && !c.lotTracked[product]
    requires Sound(c, rows, product, place)
    ensures OnHand(rows, Key(product, place, None)) == Total(rows, At(product, place))
  {
    if rows != [] {
      OneRowIsAll(c, rows[..|rows| - 1], product, place);
    }
  }

  lemma RecordKeepsSound(c: Catalog, s: Stock, m: Movement, product: int, place: Place)
    requires Tidy(s.rows) && Sound(c, s.rows, product, place)
    ensures var r := Record(c, s, m, false);
            r.Ok? ==> Tidy(r.value.rows) && Sound(c, r.value.rows, product, place)
  {
    hide Total, CheckContext, Tidy, Stored;
    RecordKeepsTidy(c, s, m, false);
    if Record(c, s, m, false).Ok? { RecordedRow(c, s, m); }
  }

  lemma {:induction false} DrawKeepsSound(c: Catalog, s: Stock, spent: int, from: Place, plan: seq<Allocation>,
                                          product: int, place: Place)
    requires Tidy(s.rows) && Sound(c, s.rows, product, place)
    ensures var r := Draw(c, s, spent, from, plan, Sale);
            r.Ok? ==> Tidy(r.value.rows) && Sound(c, r.value.rows, product, place)
  {
    hide Sound, Record, Tidy;
    if plan != [] && Draw(c, s, spent, from, plan, Sale).Ok? {
      var a, front := plan[|plan| - 1], plan[..|plan| - 1];
      DrawKeepsSound(c, s, spent, from, front, product, place);
      RecordKeepsSound(c, Draw(c, s, spent, from, front, Sale).value,
                       Movement(Key(spent, from, Some(a.lot)), -a.quantity, Sale), product, place);
    }
  }

  lemma {:induction false} DrawTotals(c: Catalog, s: Stock, spent: int, from: Place, plan: seq<Allocation>,
                                      product: int, place: Place)
    requires Tidy(s.rows)
    ensures var r := Draw(c, s, spent, from, plan, Sale);
            r.Ok? ==>
              && Tidy(r.value.rows)
              && Total(r.value.rows, At(product, place)) == Total(s.rows, At(product, place))
                   - (if spent == product && from == place then Drawn(Kept(plan)) else 0.0)
  {
    hide Record, Total, OneRowEach, Scaled, Stored;
    if plan != [] && Draw(c, s, spent, from, plan, Sale).Ok? {
      var a, front := plan[|plan| - 1], plan[..|plan| - 1];
      DrawTotals(c, s, spent, from, front, product, place);
      StoredIsOdd(a.quantity);
      assert Kept(plan)[..|front|] == Kept(front);
      RecordKeepsTidy(c, Draw(c, s, spent, from, front, Sale).value,
                      Movement(Key(spent, from, Some(a.lot)), -a.quantity, Sale), false);
      RecordMeaning(c, Draw(c, s, spent, from, front, Sale).value,
                    Movement(Key(spent, from, Some(a.lot)), -a.quantity, Sale), false, At(product, place));
    }
  }

  lemma SpendKeeps(c: Catalog, s: Stock, place: Place, line: StockLine, product: int)
    requires Tidy(s.rows) && Sound(c, s.rows, product, place)
    ensures var r := Spend(c, s, place, line, false);
            r.Ok? ==> Tidy(r.value.rows) && Sound(c, r.value.rows, product, place)
  {
    hide Sound, Record, Tidy, Draw;
    if line.trackLots {
      var plan := PlanFefo(c, s.rows, line.product, place, line.quantity);
      if plan.Ok? { DrawKeepsSound(c, s, line.product, place, plan.value, product, place); }
    } else {
      RecordKeepsSound(c, s, SaleOf(line, place), product, place);
    }
  }

  /** A line succeeds exactly when the place holds enough of its product in all. */
  lemma SpendSucceeds(c: Catalog, s: Stock, place: Place, line: StockLine)
    requires Tidy(s.rows) && Ready(c, s.rows, place, line)
    ensures Spend(c, s, place, line, false).Ok? <==> Total(s.rows, At(line.product, place)) >= line.quantity
  {
    hide Total, Sound, Available, LotBalances, Plan, DrawsInOrder, Draw;
    if line.trackLots {
      LotBalancesAreAll(c, s.rows, line.product, place);
      FefoMeaning(c, s, line.product, place, line.quantity, Sale);
    } else {
      OneRowIsAll(c, s.rows, line.product, place);
    }
  }

  /** A line that succeeds takes exactly its quantity of its product at its place, and nothing of anything else. */
  lemma SpendTakes(c: Catalog, s: Stock, place: Place, line: StockLine, negative: bool, product: int, other: Place)
    requires Tidy(s.rows) && line.quantity >= 0.0 && AtScale(line.quantity)
    ensures var r := Spend(c, s, place, line, negative);
            r.Ok? ==>
              Total(r.value.rows, At(product, other)) == Total(s.rows, At(product, other))
                - (if product == line.product && other == place then line.quantity else 0.0)
  {
    hide Total, Draw, Record, LotBalances, Plan, Drawn, Stored, AtScale, Kept;
    if line.trackLots {
      var plan := PlanFefo(c, s.rows, line.product, place, line.quantity);
      if plan.Ok? {
        DrawTotals(c, s, line.product, place, plan.value, product, other);
        BalancesAreInOrder(c, s.rows, line.product, place);
        PlanDraws(LotBalances(c, s.rows, line.product, place), line.quantity);
        PlanIsAlmostScaled(c, s, line.product, place, line.quantity);
      }
    } else {
      StoredIsOdd(line.quantity);
      StoredOfScale(line.quantity);
      RecordMeaning(c, s, SaleOf(line, place), negative, At(product, other));
    }
  }

  lemma {:induction false} DrawKeepsTidy(c: Catalog, s: Stock, product: int, place: Place, plan: seq<Allocation>)
    requires Tidy(s.rows)
    ensures Draw(c, s, product, place, plan, Sale).Ok? ==> Tidy(Draw(c, s, product, place, plan, Sale).value.rows)
  {
    hide Record, Tidy;
    if plan != [] && Draw(c, s, product, place, plan, Sale).Ok? {
      var a, front := plan[|plan| - 1], plan[..|plan| - 1];
      DrawKeepsTidy(c, s, product, place, front);
      RecordKeepsTidy(c, Draw(c, s, product, place, front, Sale).value,
                      Movement(Key(product, place, Some(a.lot)), -a.quantity, Sale), false);
    }
  }

  lemma SpendKeepsTidy(c: Catalog, s: Stock, place: Place, line: StockLine, negative: bool)
    requires Tidy(s.rows)
    ensures Spend(c, s, place, line, negative).Ok? ==> Tidy(Spend(c, s, place, line, negative).value.rows)
  {
    hide Record, Draw, Tidy, Total;
    var plan := PlanFefo(c, s.rows, line.product, place, line.quantity);
    if plan.Ok? { DrawKeepsTidy(c, s, line.product, place, plan.value); }
    RecordKeepsTidy(c, s, SaleOf(line, place), negative);
  }

  // The whole loop.

  ghost predicate AllReady(c: Catalog, rows: seq<Row>, place: Place, lines: seq<StockLine>) {
    forall i :: 0 <= i < |lines| && lines[i].tracksStock ==> Ready(c, rows, place, lines[i])
  }

  lemma {:induction false} LoopKeeps(c: Catalog, s: Stock, place: Place, lines: seq<StockLine>, product: int)
    requires Tidy(s.rows) && Sound(c, s.rows, product, place)
    ensures var r := SpendAll(c, s, place, lines, false);
            r.Ok? ==> Tidy(r.value.rows) && Sound(c, r.value.rows, product, place)
  {
    hide Sound, Spend, Tidy;
    if lines != [] && SpendAll(c, s, place, lines, false).Ok? {
      var front := lines[..|lines| - 1];
      LoopKeeps(c, s, place, front, product);
      SpendKeeps(c, SpendAll(c, s, place, front, false).value, place, lines[|lines| - 1], product);
    }
  }

  lemma {:induction false} LoopTakes(c: Catalog, s: Stock, place: Place, lines: seq<StockLine>, negative: bool,
                                     product: int, other: Place)
    requires Tidy(s.rows)
    requires forall i :: 0 <= i < |lines| ==> lines[i].tracksStock && lines[i].quantity >= 0.0 && AtScale(lines[i].quantity)
    ensures var r := SpendAll(c, s, place, lines, negative);
            r.Ok? ==>
              && Tidy(r.value.rows)
              && Total(r.value.rows, At(product, other)) == Total(s.rows, At(product, other))
                   - (if other == place then Demand(lines, product) else 0.0)
  {
    hide Spend, Total, Tidy, AtScale;
    if lines != [] && SpendAll(c, s, place, lines, negative).Ok? {
      var front := lines[..|lines| - 1];
      LoopTakes(c, s, place, front, negative, product, other);
      var t := SpendAll(c, s, place, front, negative).value;
      SpendTakes(c, t, place, lines[|lines| - 1], negative, product, other);
      SpendKeepsTidy(c, t, place, lines[|lines| - 1], negative);
    }
  }

  lemma {:induction false} LoopSucceeds(c: Catalog, s: Stock, place: Place, lines: seq<StockLine>)
    requires Tidy(s.rows)
    requires forall i :: 0 <= i < |lines| ==> lines[i].tracksStock && Ready(c, s.rows, place, lines[i])
    ensures SpendAll(c, s, place, lines, false).Ok? <==> Covered(s.rows, place, lines)
  {
    hide Spend, Total, Sound, CheckContext, Demand;
    if lines != [] {
      var last, front := |lines| - 1, lines[..|lines| - 1];
      var line := lines[last];
      LoopSucceeds(c, s, place, front);
      LastDemand(lines);
      var r := SpendAll(c, s, place, front, false);
      if r.Ok? {
        LoopKeeps(c, s, place, front, line.product);
        LoopTakes(c, s, place, front, false, line.product, place);
        SpendSucceeds(c, r.value, place, line);
        CoveredStep(s.rows, place, lines);
      } else {
        CoveredStep(s.rows, place, lines);
      }
    }
  }

  lemma LastDemand(lines: seq<StockLine>)
    requires lines != []
    ensures forall p :: Demand(lines, p) == Demand(lines[..|lines| - 1], p) + Wanted(p)(lines[|lines| - 1])
  {}

  lemma CoveredStep(rows: seq<Row>, place: Place, lines: seq<StockLine>)
    requires lines != [] && forall i :: 0 <= i < |lines| ==> lines[i].tracksStock && lines[i].quantity >= 0.0
    ensures var front, line := lines[..|lines| - 1], lines[|lines| - 1];
            Covered(rows, place, lines) <==>
              Covered(rows, place, front) && Total(rows, At(line.product, place)) >= Demand(lines, line.product)
  {
    hide Total, Demand;
    LastDemand(lines);
  }

  lemma {:induction false} StockedDemand(lines: seq<StockLine>, product: int)
    ensures Demand(Stocked(lines), product) == Demand(lines, product)
    ensures forall line :: line in Stocked(lines) <==> line in lines && line.tracksStock
  {
    if lines != [] {
      var front, line := lines[..|lines| - 1], lines[|lines| - 1];
      StockedDemand(front, product);
      assert lines == front + [line];
      if line.tracksStock { SumOneMore(Stocked(front), line, Wanted(product)); }
    }
  }

  lemma SortedDemand(lines: seq<StockLine>, product: int)
    ensures Demand(Sort(Stocked(lines), ByProduct), product) == Demand(lines, product)
    ensures forall line :: line in Sort(Stocked(lines), ByProduct) <==> line in lines && line.tracksStock
  {
    StockedDemand(lines, product);
    SumIsOrderFree(Sort(Stocked(lines), ByProduct), Stocked(lines), Wanted(product));
    SameElements(Stocked(lines), ByProduct);
  }

  /** With negative stock off, sound rows and nothing committed in between, the grouped advisory check says exactly
      whether the sequential loop will succeed, in whatever order the lines were scanned; and the loop then removes
      exactly what the lines ask for. */
  lemma AdvisoryCheckIsExact(c: Catalog, s: Stock, place: Place, lines: seq<StockLine>)
    requires Tidy(s.rows) && AllReady(c, s.rows, place, lines)
    ensures var r := Charge(c, s, place, lines, false);
            && (r.Ok? <==> Covered(s.rows, place, lines))
            && (r.Ok? ==>
                  && (forall p :: Total(r.value.rows, At(p, place)) == Total(s.rows, At(p, place)) - Demand(lines, p))
                  && (forall p, other :: other != place ==>
                        Total(r.value.rows, At(p, other)) == Total(s.rows, At(p, other)))
                  && AllReady(c, r.value.rows, place, lines))
  {
    hide Total, SpendAll, Demand, Sort, Sound, CheckContext, Stocked;
    var sorted := Sort(Stocked(lines), ByProduct);
    SortedDemand(lines, 0);
    forall i | 0 <= i < |sorted| ensures sorted[i].tracksStock && Ready(c, s.rows, place, sorted[i]) {
      assert sorted[i] in sorted;
      var j :| 0 <= j < |lines| && lines[j] == sorted[i];
    }
    LoopSucceeds(c, s, place, sorted);
    CoveredIsOrderFree(s.rows, place, lines);
    var r := Charge(c, s, place, lines, false);
    if r.Ok? {
      forall p, other
        ensures Total(r.value.rows, At(p, other))
             == Total(s.rows, At(p, other)) - (if other == place then Demand(lines, p) else 0.0)
      {
        LoopTakes(c, s, place, sorted, false, p, other);
        SortedDemand(lines, p);
      }
      forall i | 0 <= i < |lines| && lines[i].tracksStock ensures Ready(c, r.value.rows, place, lines[i]) {
        LoopKeeps(c, s, place, sorted, lines[i].product);
      }
    }
  }

  lemma CoveredIsOrderFree(rows: seq<Row>, place: Place, lines: seq<StockLine>)
    ensures Covered(rows, place, Sort(Stocked(lines), ByProduct)) <==> Covered(rows, place, lines)
  {
    hide Total, Demand, Sort, Stocked;
    var sorted := Sort(Stocked(lines), ByProduct);
    SortedDemand(lines, 0);
    forall p ensures Demand(sorted, p) == Demand(lines, p) { SortedDemand(lines, p); }
    if Covered(rows, place, lines) {
      forall i | 0 <= i < |sorted| && sorted[i].tracksStock
        ensures Total(rows, At(sorted[i].product, place)) >= Demand(sorted, sorted[i].product)
      {
        assert sorted[i] in sorted;
        var j :| 0 <= j < |lines| && lines[j] == sorted[i];
      }
    }
    if Covered(rows, place, sorted) {
      forall i | 0 <= i < |lines| && lines[i].tracksStock
        ensures Total(rows, At(lines[i].product, place)) >= Demand(lines, lines[i].product)
      {
        assert lines[i] in lines && lines[i] in sorted;
        var j :| 0 <= j < |sorted| && sorted[j] == lines[i];
      }
    }
  }

  // With negative stock on, only the lots decide.

  function Offered(c: Catalog, product: int, place: Place): Row -> Decimal {
    (r: Row) => if InStock(c, product, place, r) then r.quantity else 0.0
  }

  /** The positive stock of a product's lots at a place. */
  function LotStock(c: Catalog, rows: seq<Row>, product: int, place: Place): Decimal { Sum(rows, Offered(c, product, place)) }

  lemma {:induction false} JoinedIsLotStock(c: Catalog, rows: seq<Row>, product: int, place: Place)
    ensures Available(Joined(c, rows, product, place)) == LotStock(c, rows, product, place)
  {
    if rows != [] {
      var r, before := rows[|rows| - 1], Joined(c, rows[..|rows| - 1], product, place);
      JoinedIsLotStock(c, rows[..|rows| - 1], product, place);
      if InStock(c, product, place, r) {
        SumOneMore(before, LotBalance(r.key.lot.value, c.lots[r.key.lot.value].expiry, r.quantity), (b: LotBalance) => b.quantity);
      }
    }
  }

  lemma LotStockIsOffered(c: Catalog, rows: seq<Row>, product: int, place: Place)
    ensures Available(LotBalances(c, rows, product, place)) == LotStock(c, rows, product, place)
  {
    JoinedIsLotStock(c, rows, product, place);
    SumIsOrderFree(LotBalances(c, rows, product, place), Joined(c, rows, product, place), (b: LotBalance) => b.quantity);
  }

  /** A draw from one lot takes that much from its product's lot stock at its place, and nothing from any other. */
  lemma LotDrawTakes(c: Catalog, s: Stock, spent: Key, quantity: Decimal, product: int, place: Place)
    requires Tidy(s.rows) && spent.lot.Some? && quantity >= 0.0
    requires Record(c, s, Movement(spent, -quantity, Sale), false).Ok?
    ensures LotStock(c, Record(c, s, Movement(spent, -quantity, Sale), false).value.rows, product, place)
         == LotStock(c, s.rows, product, place) - (if At(product, place)(spent) then Stored(quantity) else 0.0)
  {
    hide Total, Stored, AtScale, Scaled, OneRowEach;
    var m := Movement(spent, -quantity, Sale);
    StoredIsOdd(quantity);
    StoredIsClose(quantity);
    RecordedRow(c, s, m);
    var i, w := Find(s.rows, spent), Offered(c, product, place);
    if i < |s.rows| {
      SumUpdate(s.rows, w, i, Row(spent, s.rows[i].quantity + Stored(-quantity)));
    } else {
      if quantity == 0.0 { WholeIsStored(0); StoredOfScale(0.0); }
      SumOneMore(s.rows, Row(spent, Stored(-quantity)), w);
    }
  }

  /** Stock of no lot is no lot's stock. */
  lemma NoLotTakesNone(c: Catalog, s: Stock, m: Movement, product: int, place: Place)
    requires m.key.lot.None? && Record(c, s, m, true).Ok?
    ensures LotStock(c, Record(c, s, m, true).value.rows, product, place) == LotStock(c, s.rows, product, place)
  {
    hide Total, Stored;
    var i, w := Find(s.rows, m.key), Offered(c, product, place);
    if i < |s.rows| {
      SumUpdate(s.rows, w, i, Row(m.key, s.rows[i].quantity + Stored(m.quantity)));
    } else {
      SumOneMore(s.rows, Row(m.key, Stored(m.quantity)), w);
    }
  }

  lemma {:induction false} DrawTakesLotStock(c: Catalog, s: Stock, spent: int, from: Place, plan: seq<Allocation>,
                                             product: int, place: Place)
    requires Tidy(s.rows) && forall i :: 0 <= i < |plan| ==> plan[i].quantity >= 0.0
    ensures var r := Draw(c, s, spent, from, plan, Sale);
            r.Ok? ==>
              LotStock(c, r.value.rows, product, place) == LotStock(c, s.rows, product, place)
                - (if spent == product && from == place then Drawn(Kept(plan)) else 0.0)
  {
    hide Record, LotStock, Tidy, Stored;
    if plan != [] && Draw(c, s, spent, from, plan, Sale).Ok? {
      var a, front := plan[|plan| - 1], plan[..|plan| - 1];
      DrawTakesLotStock(c, s, spent, from, front, product, place);
      DrawKeepsTidy(c, s, spent, from, front);
      assert Kept(plan)[..|front|] == Kept(front);
      LotDrawTakes(c, Draw(c, s, spent, from, front, Sale).value, Key(spent, from, Some(a.lot)), a.quantity, product, place);
    }
  }

  /** With negative stock on, a line without lots always succeeds, and one with lots exactly when they cover it. */
  lemma SpendNegative(c: Catalog, s: Stock, place: Place, line: StockLine, product: int)
    requires Tidy(s.rows) && Known(c, place, line)
    ensures var r := Spend(c, s, place, line, true);
            && (r.Ok? <==> line.trackLots ==> LotStock(c, s.rows, line.product, place) >= line.quantity)
            && (r.Ok? ==>
                  LotStock(c, r.value.rows, product, place) == LotStock(c, s.rows, product, place)
                    - (if line.trackLots && product == line.product then line.quantity else 0.0))
  {
    hide Total, LotStock, LotBalances, Available, Plan, Drawn, DrawsInOrder, Draw, Kept, Stored, AtScale, Tidy, TakenAt, OnHand;
    if line.trackLots {
      LotStockIsOffered(c, s.rows, line.product, place);
      FefoMeaning(c, s, line.product, place, line.quantity, Sale);
      StoredOfScale(line.quantity);
      var plan := PlanFefo(c, s.rows, line.product, place, line.quantity);
      if plan.Ok? {
        FefoDecides(c, s, line.product, place, line.quantity);
        PlanIsInOrder(LotBalances(c, s.rows, line.product, place), line.quantity);
        DrawTakesLotStock(c, s, line.product, place, plan.value, product, place);
      }
    } else {
      NoLotTakesNone(c, s, SaleOf(line, place), product, place);
    }
  }

  /** Of each lot-tracked product, the lots hold all that the sale wants of it. */
  ghost predicate LotsCover(c: Catalog, rows: seq<Row>, place: Place, lines: seq<StockLine>) {
    forall i :: 0 <= i < |lines| && lines[i].tracksStock && lines[i].trackLots ==>
      LotStock(c, rows, lines[i].product, place) >= Demand(lines, lines[i].product)
  }

  lemma LotsCoverStep(c: Catalog, rows: seq<Row>, place: Place, lines: seq<StockLine>)
    requires lines != [] && forall i :: 0 <= i < |lines| ==> lines[i].tracksStock && Known(c, place, lines[i])
    ensures var front, line := lines[..|lines| - 1], lines[|lines| - 1];
            LotsCover(c, rows, place, lines) <==>
              LotsCover(c, rows, place, front)
              && (line.trackLots ==> LotStock(c, rows, line.product, place) >= Demand(lines, line.product))
  {
    hide LotStock, Demand, AtScale, CheckContext;
    LastDemand(lines);
    var front, line := lines[..|lines| - 1], lines[|lines| - 1];
    assert forall i :: 0 <= i < |front| ==> front[i] == lines[i] && Known(c, place, front[i]);
  }

  lemma {:induction false} NegativeLoop(c: Catalog, s: Stock, place: Place, lines: seq<StockLine>)
    requires Tidy(s.rows) && forall i :: 0 <= i < |lines| ==> lines[i].tracksStock && Known(c, place, lines[i])
    ensures var r := SpendAll(c, s, place, lines, true);
            && (r.Ok? <==> LotsCover(c, s.rows, place, lines))
            && (r.Ok? ==>
                  && Tidy(r.value.rows)
                  && forall p :: p in c.lotTracked && c.lotTracked[p] ==>
                       LotStock(c, r.value.rows, p, place) == LotStock(c, s.rows, p, place) - Demand(lines, p))
  {
    hide Spend, LotStock, Demand, Tidy, AtScale, LotsCover;
    if lines == [] {
      NoDemand();
      assert LotsCover(c, s.rows, place, []) by { NothingToCover(c, s.rows, place); }
    } else {
      var front, line := lines[..|lines| - 1], lines[|lines| - 1];
      assert Known(c, place, line);
      NegativeLoop(c, s, place, front);
      LotsCoverStep(c, s.rows, place, lines);
      LastDemand(lines);
      var t := SpendAll(c, s, place, front, true);
      if t.Ok? {
        SpendKeepsTidy(c, t.value, place, line, true);
        forall p | p in c.lotTracked && c.lotTracked[p]
          ensures var r := Spend(c, t.value, place, line, true);
                  r.Ok? ==> LotStock(c, r.value.rows, p, place) == LotStock(c, t.value.rows, p, place)
                              - (if p == line.product then line.quantity else 0.0)
        {
          SpendNegative(c, t.value, place, line, p);
        }
        SpendNegative(c, t.value, place, line, line.product);
      }
    }
  }

  lemma NoDemand()
    ensures forall p :: Demand([], p) == 0.0
  {}

  lemma NothingToCover(c: Catalog, rows: seq<Row>, place: Place)
    ensures LotsCover(c, rows, place, [])
  {}

  lemma LotsCoverIsOrderFree(c: Catalog, rows: seq<Row>, place: Place, lines: seq<StockLine>)
    ensures LotsCover(c, rows, place, Sort(Stocked(lines), ByProduct)) <==> LotsCover(c, rows, place, lines)
  {
    hide LotStock, Demand, Sort, Stocked;
    var sorted := Sort(Stocked(lines), ByProduct);
    SortedDemand(lines, 0);
    forall p ensures Demand(sorted, p) == Demand(lines, p) { SortedDemand(lines, p); }
    if LotsCover(c, rows, place, lines) {
      forall i | 0 <= i < |sorted| && sorted[i].tracksStock && sorted[i].trackLots
        ensures LotStock(c, rows, sorted[i].product, place) >= Demand(sorted, sorted[i].product)
      {
        assert sorted[i] in sorted;
        var j :| 0 <= j < |lines| && lines[j] == sorted[i];
      }
    }
    if LotsCover(c, rows, place, sorted) {
      forall i | 0 <= i < |lines| && lines[i].tracksStock && lines[i].trackLots
        ensures LotStock(c, rows, lines[i].product, place) >= Demand(lines, lines[i].product)
      {
        assert lines[i] in lines && lines[i] in sorted;
        var j :| 0 <= j < |sorted| && sorted[j] == lines[i];
      }
    }
  }

  /** With negative stock on, whatever state the balances are in, checkout is refused only for want of lots: it succeeds
      exactly when each lot-tracked product's positive lot stock covers all that the sale wants of it, and it then
      removes exactly what the lines ask for. The advisory check passes either way. */
  lemma NegativeStockNeedsLots(c: Catalog, s: Stock, place: Place, lines: seq<StockLine>)
    requires Tidy(s.rows) && forall i :: 0 <= i < |lines| && lines[i].tracksStock ==> Known(c, place, lines[i])
    ensures var r := Charge(c, s, place, lines, true);
            && (r.Ok? <==> LotsCover(c, s.rows, place, lines))
            && (r.Ok? ==>
                  forall p, other :: Total(r.value.rows, At(p, other)) == Total(s.rows, At(p, other))
                                       - (if other == place then Demand(lines, p) else 0.0))
  {
    hide Total, SpendAll, Demand, Sort, Tidy, CheckContext, Stocked, LotsCover, AtScale;
    var sorted := Sort(Stocked(lines), ByProduct);
    SortedDemand(lines, 0);
    forall i | 0 <= i < |sorted| ensures sorted[i].tracksStock && Known(c, place, sorted[i]) {
      assert sorted[i] in sorted;
      var j :| 0 <= j < |lines| && lines[j] == sorted[i];
    }
    NegativeLoop(c, s, place, sorted);
    LotsCoverIsOrderFree(c, s.rows, place, lines);
    var r := Charge(c, s, place, lines, true);
    if r.Ok? {
      forall p, other
        ensures Total(r.value.rows, At(p, other))
             == Total(s.rows, At(p, other)) - (if other == place then Demand(lines, p) else 0.0)
      {
        LoopTakes(c, s, place, sorted, true, p, other);
        SortedDemand(lines, p);
      }
    }
  }

  /** A ledger entry that a sale of these lines may write: a sale, at the place, of one of their products. */
  ghost predicate Sells(m: Movement, place: Place, lines: seq<StockLine>) {
    m.kind == Sale && m.key.place == place && exists i :: 0 <= i < |lines| && lines[i].tracksStock && lines[i].product == m.key.product
  }

  ghost predicate OnlySells(before: seq<Movement>, after: seq<Movement>, place: Place, lines: seq<StockLine>) {
    && |before| <= |after| && after[..|before|] == before
    && forall i :: |before| <= i < |after| ==> Sells(after[i], place, lines)
  }

  lemma SpendWrites(c: Catalog, s: Stock, place: Place, line: StockLine, negative: bool)
    requires line.tracksStock
    ensures Spend(c, s, place, line, negative).Ok? ==>
              OnlySells(s.ledger, Spend(c, s, place, line, negative).value.ledger, place, [line])
  {
    hide Total, PlanFefo, Draw, CheckContext, Stored;
    var r := Spend(c, s, place, line, negative);
    if r.Ok? {
      assert [line][0] == line;
      if line.trackLots {
        DrawWrites(c, s, line.product, place, PlanFefo(c, s.rows, line.product, place, line.quantity).value, Sale);
      }
    }
  }

  lemma OnlySellsMore(a: seq<Movement>, b: seq<Movement>, after: seq<Movement>, place: Place, lines: seq<StockLine>)
    requires lines != [] && OnlySells(a, b, place, lines[..|lines| - 1]) && OnlySells(b, after, place, [lines[|lines| - 1]])
    ensures OnlySells(a, after, place, lines)
  {
    var last := |lines| - 1;
    assert after[..|a|] == b[..|a|];
    forall i | |a| <= i < |after| ensures Sells(after[i], place, lines) {
      if i < |b| {
        assert after[i] == b[i];
        var j :| 0 <= j < last && lines[..last][j].tracksStock && lines[..last][j].product == after[i].key.product;
        assert lines[j].tracksStock && lines[j].product == after[i].key.product;
      } else {
        assert lines[last].tracksStock && lines[last].product == after[i].key.product;
      }
    }
  }

  lemma {:induction false} LoopWrites(c: Catalog, s: Stock, place: Place, lines: seq<StockLine>, negative: bool)
    requires forall i :: 0 <= i < |lines| ==> lines[i].tracksStock
    ensures SpendAll(c, s, place, lines, negative).Ok? ==>
              OnlySells(s.ledger, SpendAll(c, s, place, lines, negative).value.ledger, place, lines)
  {
    hide Spend, OnlySells;
    if lines == [] {
      NothingSold(s.ledger, place);
    } else if SpendAll(c, s, place, lines, negative).Ok? {
      var front, line := lines[..|lines| - 1], lines[|lines| - 1];
      LoopWrites(c, s, place, front, negative);
      SpendWrites(c, SpendAll(c, s, place, front, negative).value, place, line, negative);
      OnlySellsMore(s.ledger, SpendAll(c, s, place, front, negative).value.ledger,
                    SpendAll(c, s, place, lines, negative).value.ledger, place, lines);
    }
  }

  lemma NothingSold(ledger: seq<Movement>, place: Place)
    ensures OnlySells(ledger, ledger, place, [])
  {}

  /** All that a checkout adds to the ledger are sales at its place of products on its lines. */
  lemma ChargeWrites(c: Catalog, s: Stock, place: Place, lines: seq<StockLine>, negative: bool)
    ensures Charge(c, s, place, lines, negative).Ok? ==>
              OnlySells(s.ledger, Charge(c, s, place, lines, negative).value.ledger, place, lines)
  {
    hide SpendAll, Sort, Stocked;
    var sorted, r := Sort(Stocked(lines), ByProduct), Charge(c, s, place, lines, negative);
    SortedDemand(lines, 0);
    forall i | 0 <= i < |sorted| ensures sorted[i].tracksStock { assert sorted[i] in sorted; }
    LoopWrites(c, s, place, sorted, negative);
    if r.Ok? {
      forall i | |s.ledger| <= i < |r.value.ledger| ensures Sells(r.value.ledger[i], place, lines) {
        assert Sells(r.value.ledger[i], place, sorted);
        var j :| 0 <= j < |sorted| && sorted[j].tracksStock && sorted[j].product == r.value.ledger[i].key.product;
        assert sorted[j] in sorted && sorted[j] in lines;
        var k :| 0 <= k < |lines| && lines[k] == sorted[j];
      }
    }
  }

  // The service.

  /** What a sale requires of each of its products, and the products in the order they appear. */
  method RequiredByProduct(lines: seq<StockLine>) returns (required: map<int, Decimal>, products: seq<int>)
    ensures forall p :: p in products <==> p in required
    ensures forall p :: p in required <==> exists j :: 0 <= j < |lines| && lines[j].tracksStock && lines[j].product == p
    ensures forall p :: p in required ==> required[p] == Demand(lines, p)
  {
    hide Demand;
    required, products := map[], [];
    NoDemand();
    for i := 0 to |lines|
      invariant forall p :: p in products <==> p in required
      invariant forall p :: p in required <==> exists j :: 0 <= j < i && lines[j].tracksStock && lines[j].product == p
      invariant forall p :: p in required ==> required[p] == Demand(lines[..i], p)
      invariant forall p :: p !in required ==> Demand(lines[..i], p) == 0.0
    {
      assert lines[..i + 1][..i] == lines[..i];
      LastDemand(lines[..i + 1]);
      var line := lines[i];
      if line.tracksStock {
        if line.product !in required { products := products + [line.product]; }
        var before := if line.product in required then required[line.product] else 0.0;
        required := required[line.product := before + line.quantity];
      }
    }
    assert lines[..|lines|] == lines;
  }

  /** Group what is required by product, then compare each with what is there. */
  method AssertStockAvailable(room: Stockroom, place: Place, lines: seq<StockLine>, negative: bool) returns (ok: bool)
    ensures ok <==> negative || Covered(room.rows, place, lines)
  {
    hide Total, Demand;
    if negative { return true; }
    var required, products := RequiredByProduct(lines);
    var order := Sort(products, (a: int, b: int) => a <= b);
    SameElements(products, (a: int, b: int) => a <= b);
    for i := 0 to |order|
      invariant forall j :: 0 <= j < i ==> order[j] in required && Total(room.rows, At(order[j], place)) >= required[order[j]]
    {
      assert order[i] in order;
      var available := Total(room.rows, At(order[i], place));
      if available < required[order[i]] {
        return false;
      }
    }
    assert forall i :: 0 <= i < |lines| && lines[i].tracksStock ==> lines[i].product in order;
    return true;
  }

  /** Lock, check and decrement line by line; a refusal undoes the lines before it. */
  method SpendStock(room: Stockroom, place: Place, lines: seq<StockLine>, negative: bool) returns (error: Option<Error>)
    requires room.Valid()
    modifies room`rows, room`ledger
    ensures room.Valid()
    ensures match Charge(room.catalog, old(room.State()), place, lines, negative)
            case Err(e) => error == Some(e) && room.State() == old(room.State())
            case Ok(after) => error == None && room.State() == after
  {
    hide Agrees, Record, Consume, Total, Sort, Stocked;
    ghost var before := room.State();
    var rows, ledger := room.rows, room.ledger;
    var sorted := Sort(Stocked(lines), ByProduct);
    for i := 0 to |sorted|
      invariant room.Valid()
      invariant SpendAll(room.catalog, before, place, sorted[..i], negative) == Ok(room.State())
    {
      assert sorted[..i + 1][..i] == sorted[..i];
      var line := sorted[i];
      var available := Total(room.rows, At(line.product, place));
      if available < line.quantity && !negative {
        error := Some(Insufficient);
      } else if line.trackLots {
        error := ExecuteConsumption(room, line.product, place, line.quantity, Sale);
      } else {
        error := room.RecordMovement(SaleOf(line, place), negative);
      }
      if error.Some? {
        SpendFails(room.catalog, before, place, sorted, negative, i + 1);
        room.rows, room.ledger := rows, ledger;
        assert room.State() == before;
        return;
      }
    }
    assert sorted[..|sorted|] == sorted;
    return None;
  }

  lemma {:induction false} SpendFails(c: Catalog, s: Stock, place: Place, lines: seq<StockLine>, negative: bool, n: nat)
    requires n <= |lines| && SpendAll(c, s, place, lines[..n], negative).Err?
    ensures SpendAll(c, s, place, lines, negative) == SpendAll(c, s, place, lines[..n], negative)
  {
    if n < |lines| {
      assert lines[..|lines| - 1][..n] == lines[..n];
      SpendFails(c, s, place, lines[..|lines| - 1], negative, n);
    } else {
      assert lines[..n] == lines;
    }
  }
}
