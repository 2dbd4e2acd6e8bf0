/** Whole histories of stock operations: receipts, sales, returns, adjustments, transfers, counts and rebuilds. */
module StockRuns {
  import opened Money
  import opened Sums
  import opened Inventory
  import opened Lots
  import opened CheckoutStock

  /** Master data may change between operations. */
  datatype World = World(catalog: Catalog, stock: Stock)

  datatype Op =
    | Move(movement: Movement, exempt: bool)
    | Transfer(product: int, from: Place, to: Place, lot: Option<int>, amount: Decimal)
    | Count(lotId: int, place: Place, counted: Decimal)
    | Reduce(product: int, place: Place, amount: Decimal, kind: Kind)
    | Sell(place: Place, lines: seq<StockLine>, negative: bool)
    | Configure(catalog: Catalog)
    | Rebuild(groups: seq<Key>)

  ghost function Effect(w: World, op: Op): Outcome<Stock> {
    var c, s := w.catalog, w.stock;
    match op
    case Move(m, exempt) => Record(c, s, m, exempt)
    case Transfer(product, from, to, lot, amount) =>
      if amount > 0.0 then Transferred(c, s, product, from, to, lot, amount) else Err(Insufficient)
    case Count(lot, place, counted) => if counted >= 0.0 then Counted(c, s, lot, place, counted) else Err(Insufficient)
    case Reduce(product, place, amount, kind) => Consume(c, s, product, place, amount, kind)
    case Sell(place, lines, negative) => Charge(c, s, place, lines, negative)
    case Configure(_) => Ok(s)
    case Rebuild(groups) => if GroupsOf(s.ledger, groups) then Ok(Stock(Rebuilt(s.ledger, groups), s.ledger)) else Ok(s)
  }

  /** A refused operation leaves everything as it was. */
  ghost function Apply(w: World, op: Op): World {
    var r := Effect(w, op);
    if r.Err? then w else World(if op.Configure? then op.catalog else w.catalog, r.value)
  }

  ghost function Run(w: World, ops: seq<Op>): World {
    if ops == [] then w else Apply(Run(w, ops[..|ops| - 1]), ops[|ops| - 1])
  }

  /** Without the administrative correction and without the shop's negative-stock setting. */
  predicate Ordinary(op: Op) {
    (op.Move? ==> !op.exempt) && (op.Sell? ==> !op.negative)
  }

  /** The projection agrees with the ledger and, when `strict`, no row is negative. */
  ghost predicate Good(s: Stock, strict: bool) {
    Agrees(s) && (strict ==> NoneNegative(s.rows))
  }

  lemma RecordKeeps(c: Catalog, s: Stock, m: Movement, exempt: bool, strict: bool)
    requires Good(s, strict) && (strict ==> !exempt)
    ensures Record(c, s, m, exempt).Ok? ==> Good(Record(c, s, m, exempt).value, strict)
  {
    hide Record, NoneNegative;
    RecordKeepsAgreement(c, s, m, exempt);
    if strict { RecordKeepsNonNegative(c, s, m); }
  }

  lemma TransferKeeps(c: Catalog, s: Stock, op: Op, strict: bool)
    requires Good(s, strict) && op.Transfer?
    ensures var r := Transferred(c, s, op.product, op.from, op.to, op.lot, op.amount); r.Ok? ==> Good(r.value, strict)
  {
    hide Record, Good, CheckContext;
    var out := Movement(Key(op.product, op.from, op.lot), -op.amount, TransferOut);
    RecordKeeps(c, s, out, false, strict);
    if Record(c, s, out, false).Ok? {
      RecordKeeps(c, Record(c, s, out, false).value, Movement(Key(op.product, op.to, op.lot), op.amount, TransferIn),
                  false, strict);
    }
  }

  lemma CountKeeps(c: Catalog, s: Stock, lot: int, place: Place, counted: Decimal, strict: bool)
    requires Good(s, strict)
    ensures Counted(c, s, lot, place, counted).Ok? ==> Good(Counted(c, s, lot, place, counted).value, strict)
  {
    hide Record, Good, CheckContext, OnHand;
    if lot in c.lots {
      var key := Key(c.lots[lot].product, place, Some(lot));
      RecordKeeps(c, s, Movement(key, counted - OnHand(s.rows, key), Adjustment), false, strict);
    }
  }

  lemma {:induction false} DrawKeeps(c: Catalog, s: Stock, product: int, place: Place, plan: seq<Allocation>, kind: Kind,
                                     strict: bool)
    requires Good(s, strict)
    ensures Draw(c, s, product, place, plan, kind).Ok? ==> Good(Draw(c, s, product, place, plan, kind).value, strict)
  {
    hide Record, Good;
    if plan != [] && Draw(c, s, product, place, plan, kind).Ok? {
      var a, front := plan[|plan| - 1], plan[..|plan| - 1];
      DrawKeeps(c, s, product, place, front, kind, strict);
      RecordKeeps(c, Draw(c, s, product, place, front, kind).value,
                  Movement(Key(product, place, Some(a.lot)), -a.quantity, kind), false, strict);
    }
  }

  lemma ConsumeKeeps(c: Catalog, s: Stock, product: int, place: Place, amount: Decimal, kind: Kind, strict: bool)
    requires Good(s, strict)
    ensures Consume(c, s, product, place, amount, kind).Ok? ==> Good(Consume(c, s, product, place, amount, kind).value, strict)
  {
    hide PlanFefo, Draw, Good;
    var plan := PlanFefo(c, s.rows, product, place, amount);
    if plan.Ok? { DrawKeeps(c, s, product, place, plan.value, kind, strict); }
  }

  lemma {:induction false} SpendAllKeeps(c: Catalog, s: Stock, place: Place, lines: seq<StockLine>, negative: bool, strict: bool)
    requires Good(s, strict) && (strict ==> !negative)
    ensures SpendAll(c, s, place, lines, negative).Ok? ==> Good(SpendAll(c, s, place, lines, negative).value, strict)
  {
    hide Record, Consume, Good, Total;
    if lines != [] && SpendAll(c, s, place, lines, negative).Ok? {
      var line, front := lines[|lines| - 1], lines[..|lines| - 1];
      SpendAllKeeps(c, s, place, front, negative, strict);
      var t := SpendAll(c, s, place, front, negative).value;
      ConsumeKeeps(c, t, line.product, place, line.quantity, Sale, strict);
      RecordKeeps(c, t, SaleOf(line, place), negative, strict);
    }
  }

  lemma {:induction false} ApplyKeeps(w: World, op: Op, strict: bool)
    requires Good(w.stock, strict) && (strict ==> Ordinary(op))
    ensures Good(Apply(w, op).stock, strict)
  {
    hide Record, Transferred, Counted, Consume, SpendAll, Agrees, Rebuilt;
    var c, s := w.catalog, w.stock;
    match op
    case Move(m, exempt) => RecordKeeps(c, s, m, exempt, strict);
    case Transfer(_, _, _, _, _) => TransferKeeps(c, s, op, strict);
    case Count(lot, place, counted) => CountKeeps(c, s, lot, place, counted, strict);
    case Reduce(product, place, amount, kind) => ConsumeKeeps(c, s, product, place, amount, kind, strict);
    case Sell(place, lines, negative) =>
      SpendAllKeeps(c, s, place, Sorting.Sort(Stocked(lines), ByProduct), negative, strict);
    case Configure(_) =>
    case Rebuild(groups) => if GroupsOf(s.ledger, groups) { RebuildChangesNothing(s, groups); }
  }

  lemma {:induction false} RunKeeps(w: World, ops: seq<Op>, strict: bool)
    requires Good(w.stock, strict) && (strict ==> forall i :: 0 <= i < |ops| ==> Ordinary(ops[i]))
    ensures Good(Run(w, ops).stock, strict)
  {
    hide Good, Apply;
    if ops != [] {
      RunKeeps(w, ops[..|ops| - 1], strict);
      ApplyKeeps(Run(w, ops[..|ops| - 1]), ops[|ops| - 1], strict);
    }
  }

  lemma NothingYet()
    ensures Good(Stock([], []), true)
  {}

  /** After any history from an empty warehouse every coordinate's row is the sum of its movements, it has one exactly
      when it has moved, and rebuilding the table would change nothing. */
  lemma {:induction false} ProjectionAgreement(catalog: Catalog, ops: seq<Op>, groups: seq<Key>)
    requires GroupsOf(Run(World(catalog, Stock([], [])), ops).stock.ledger, groups)
    ensures var s := Run(World(catalog, Stock([], [])), ops).stock;
            Agrees(s) && SameTable(Rebuilt(s.ledger, groups), s.rows)
  {
    hide Run, SameTable, Rebuilt, GroupsOf;
    var start := World(catalog, Stock([], []));
    NothingYet();
    RunKeeps(start, ops, false);
    RebuildChangesNothing(Run(start, ops).stock, groups);
  }

  /** A history with no exempted decrease leaves no coordinate below zero, whatever master data did meanwhile. */
  lemma {:induction false} OrdinaryRunsStayNonNegative(catalog: Catalog, ops: seq<Op>)
    requires forall i :: 0 <= i < |ops| ==> Ordinary(ops[i])
    ensures NoneNegative(Run(World(catalog, Stock([], [])), ops).stock.rows)
  {
    NothingYet();
    RunKeeps(World(catalog, Stock([], [])), ops, true);
  }

  // Sums over many coordinates.

  function BookedAt(ledger: seq<Movement>, picked: Selection): Row -> Decimal {
    (r: Row) => if picked(r.key) then Booked(ledger, Only(r.key)) else 0.0
  }

  function Once(key: Key, amount: Decimal): Row -> Decimal { (r: Row) => if r.key == key then amount else 0.0 }

  lemma {:induction false} RowsAreBooked(rows: seq<Row>, s: Stock, picked: Selection)
    requires rows <= s.rows && Agrees(s)
    ensures Total(rows, picked) == Sum(rows, BookedAt(s.ledger, picked))
  {
    hide Booked;
    if rows != [] {
      var last := |rows| - 1;
      RowsAreBooked(rows[..last], s, picked);
      RowIsOnHand(s.rows, last);
    }
  }

  lemma {:induction false} NeverThere(rows: seq<Row>, key: Key, amount: Decimal)
    requires !HasRow(rows, key)
    ensures Sum(rows, Once(key, amount)) == 0.0
  {
    if rows != [] {
      var last := |rows| - 1;
      assert rows[last].key != key;
      assert forall i :: 0 <= i < last ==> rows[..last][i] == rows[i];
      NeverThere(rows[..last], key, amount);
    }
  }

  lemma {:induction false} ThereOnce(rows: seq<Row>, key: Key, amount: Decimal)
    requires OneRowEach(rows) && HasRow(rows, key)
    ensures Sum(rows, Once(key, amount)) == amount
  {
    var last := |rows| - 1;
    if rows[last].key == key {
      assert !HasRow(rows[..last], key);
      NeverThere(rows[..last], key, amount);
    } else {
      var i :| 0 <= i < |rows| && rows[i].key == key;
      assert rows[..last][i].key == key;
      ThereOnce(rows[..last], key, amount);
    }
  }

  lemma {:induction false} OneMoreMovement(rows: seq<Row>, ledger: seq<Movement>, m: Movement, picked: Selection)
    ensures Sum(rows, BookedAt(ledger + [m], picked))
         == Sum(rows, BookedAt(ledger, picked)) + Sum(rows, Once(m.key, Moved(picked)(m)))
  {
    hide Booked;
    if rows != [] {
      var last := |rows| - 1;
      OneMoreMovement(rows[..last], ledger, m, picked);
      BookedOneMore(ledger, m, Only(rows[last].key));
    }
  }

  lemma {:induction false} NothingBooked(rows: seq<Row>, picked: Selection)
    ensures Sum(rows, BookedAt([], picked)) == 0.0
  {
    if rows != [] {
      NothingBooked(rows[..|rows| - 1], picked);
      assert Booked([], Only(rows[|rows| - 1].key)) == 0.0;
    }
  }

  lemma {:induction false} GroupedIsBooked(rows: seq<Row>, ledger: seq<Movement>, picked: Selection)
    requires OneRowEach(rows) && forall i :: 0 <= i < |ledger| ==> HasRow(rows, ledger[i].key)
    ensures Sum(rows, BookedAt(ledger, picked)) == Booked(ledger, picked)
  {
    hide HasRow, OneRowEach;
    if ledger == [] {
      NothingBooked(rows, picked);
    } else {
      var front, m := ledger[..|ledger| - 1], ledger[|ledger| - 1];
      assert ledger == front + [m];
      GroupedIsBooked(rows, front, picked);
      OneMoreMovement(rows, front, m, picked);
      ThereOnce(rows, m.key, Moved(picked)(m));
    }
  }

  /** However balances are added up (a place, a product, a warehouse, everything), the ledger adds up to the same. */
  lemma {:induction false} EveryTotalIsBooked(s: Stock, picked: Selection)
    requires Agrees(s)
    ensures Total(s.rows, picked) == Booked(s.ledger, picked)
  {
    RowsAreBooked(s.rows, s, picked);
    forall i | 0 <= i < |s.ledger| ensures HasRow(s.rows, s.ledger[i].key) {
      assert HasMoved(s.ledger, s.ledger[i].key);
    }
    GroupedIsBooked(s.rows, s.ledger, picked);
  }
}
