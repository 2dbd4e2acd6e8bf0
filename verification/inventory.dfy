/** The stock ledger and its projection: an append-only list of movements, and one balance row per coordinate. */
module Inventory {
  import opened Money
  import opened Sums

  datatype Place = Place(warehouse: int, location: int)

  /** One stock coordinate. */
  datatype Key = Key(product: int, place: Place, lot: Option<int>)

  datatype Row = Row(key: Key, quantity: Decimal)

  datatype Kind = Receipt | Sale | Return | Adjustment | Waste | TransferIn | TransferOut

  datatype Movement = Movement(key: Key, quantity: Decimal, kind: Kind)

  datatype Lot = Lot(product: int, expiry: Option<int>)

  /** Master data: which products are lot-tracked, which warehouse each location is in, and the lots. */
  datatype Catalog = Catalog(lotTracked: map<int, bool>, warehouses: set<int>, locations: map<int, int>, lots: map<int, Lot>)

  datatype Error =
    | UnknownProduct | UnknownWarehouse | UnknownLocation | ForeignLocation | UnknownLot | ForeignLot
    | LotRequired | LotForbidden | NotLotTracked | SamePlace | Insufficient

  datatype Outcome<+T> = Ok(value: T) | Err(error: Error)

  /** The balance table in the order of its row ids, and the ledger in the order it was written. */
  datatype Stock = Stock(rows: seq<Row>, ledger: seq<Movement>)

  type Selection = Key -> bool

  function Only(key: Key): Selection { (k: Key) => k == key }
  function At(product: int, place: Place): Selection { (k: Key) => k.product == product && k.place == place }
  function Of(product: int): Selection { (k: Key) => k.product == product }

  function Held(picked: Selection): Row -> Decimal { (r: Row) => if picked(r.key) then r.quantity else 0.0 }
  function Moved(picked: Selection): Movement -> Decimal { (m: Movement) => if picked(m.key) then m.quantity else 0.0 }

  function Total(rows: seq<Row>, picked: Selection): Decimal { Sum(rows, Held(picked)) }
  function Booked(ledger: seq<Movement>, picked: Selection): Decimal { Sum(ledger, Moved(picked)) }

  predicate HasRow(rows: seq<Row>, key: Key) { exists i :: 0 <= i < |rows| && rows[i].key == key }
  predicate HasMoved(ledger: seq<Movement>, key: Key) { exists i :: 0 <= i < |ledger| && ledger[i].key == key }

  function OnHand(rows: seq<Row>, key: Key): Decimal { Total(rows, Only(key)) }

  function Find(rows: seq<Row>, key: Key): (i: nat)
    ensures i <= |rows|
    ensures i < |rows| ==> rows[i].key == key
    ensures i < |rows| <==> HasRow(rows, key)
  {
    if rows == [] then 0
    else
      var last := |rows| - 1;
      var i := Find(rows[..last], key);
      if i < last then
        assert rows[..last][i].key == key;
        i
      else if rows[last].key == key then last
      else |rows|
  }

  /** Create the row of a coordinate or add to it. */
  function Upsert(rows: seq<Row>, key: Key, quantity: Decimal): seq<Row> {
    var i := Find(rows, key);
    if i < |rows| then rows[i := Row(key, rows[i].quantity + quantity)] else rows + [Row(key, quantity)]
  }

  function CheckPlace(c: Catalog, place: Place): Option<Error> {
    if place.warehouse !in c.warehouses then Some(UnknownWarehouse)
    else if place.location !in c.locations then Some(UnknownLocation)
    else if c.locations[place.location] != place.warehouse then Some(ForeignLocation)
    else None
  }

  /** The cross-row rules of a coordinate; `policy` also applies the product's lot tracking. */
  function CheckContext(c: Catalog, key: Key, policy: bool): Option<Error> {
    if key.product !in c.lotTracked then Some(UnknownProduct)
    else if CheckPlace(c, key.place).Some? then CheckPlace(c, key.place)
    else if key.lot.Some? && key.lot.value !in c.lots then Some(UnknownLot)
    else if key.lot.Some? && c.lots[key.lot.value].product != key.product then Some(ForeignLot)
    else if policy && c.lotTracked[key.product] && key.lot.None? then Some(LotRequired)
    else if policy && !c.lotTracked[key.product] && key.lot.Some? then Some(LotForbidden)
    else None
  }

  /** A coordinate is valid exactly when the product exists, the location is one of the warehouse's, a lot if there is one
      is the product's own and, by policy, there is one just when the product tracks lots. A refusal says what is wrong. */
  lemma ContextMeaning(c: Catalog, key: Key, policy: bool)
    ensures var e := CheckContext(c, key, policy);
            && (e.None? <==>
                  && key.product in c.lotTracked && (policy ==> c.lotTracked[key.product] == key.lot.Some?)
                  && key.place.warehouse in c.warehouses
                  && key.place.location in c.locations && c.locations[key.place.location] == key.place.warehouse
                  && (key.lot.Some? ==> key.lot.value in c.lots && c.lots[key.lot.value].product == key.product))
            && (e == Some(UnknownProduct) ==> key.product !in c.lotTracked)
            && (e == Some(UnknownWarehouse) ==> key.place.warehouse !in c.warehouses)
            && (e == Some(UnknownLocation) ==> key.place.location !in c.locations)
            && (e == Some(ForeignLocation) ==>
                  key.place.location in c.locations && c.locations[key.place.location] != key.place.warehouse)
            && (e == Some(UnknownLot) ==> key.lot.Some? && key.lot.value !in c.lots)
            && (e == Some(ForeignLot) ==>
                  key.lot.Some? && key.lot.value in c.lots && c.lots[key.lot.value].product != key.product)
            && (e == Some(LotRequired) ==> policy && key.product in c.lotTracked && c.lotTracked[key.product] && key.lot.None?)
            && (e == Some(LotForbidden) ==> policy && key.product in c.lotTracked && !c.lotTracked[key.product] && key.lot.Some?)
            && (e.Some? ==> e.value !in {NotLotTracked, SamePlace, Insufficient})
  {}

  function Post(s: Stock, m: Movement): Stock {
    Stock(Upsert(s.rows, m.key, m.quantity), s.ledger + [m])
  }

  /** The ledger and the balance keep six decimals of a movement. */
  function StoredMovement(m: Movement): Movement { m.(quantity := Stored(m.quantity)) }

  /** One movement: refused out of context, or when it would leave its own coordinate negative. */
  function Record(c: Catalog, s: Stock, m: Movement, exempt: bool): Outcome<Stock> {
    match CheckContext(c, m.key, true)
    case Some(e) => Err(e)
    case None =>
      if m.quantity < 0.0 && !exempt && OnHand(s.rows, m.key) + m.quantity < 0.0 then Err(Insufficient)
      else Ok(Post(s, StoredMovement(m)))
  }

  /** Out of one place and into another, both or neither. */
  function Transferred(c: Catalog, s: Stock, product: int, from: Place, to: Place, lot: Option<int>,
                       quantity: Decimal): Outcome<Stock> {
    var source, target := Key(product, from, lot), Key(product, to, lot);
    if from == to then Err(SamePlace)
    else if CheckContext(c, source, true).Some? then Err(CheckContext(c, source, true).value)
    else if CheckContext(c, target, true).Some? then Err(CheckContext(c, target, true).value)
    else match Record(c, s, Movement(source, -quantity, TransferOut), false)
      case Err(e) => Err(e)
      case Ok(out) => Record(c, out, Movement(target, quantity, TransferIn), false)
  }

  /** A counted lot: the ledger receives the difference, if there is one. */
  function Counted(c: Catalog, s: Stock, lot: int, place: Place, quantity: Decimal): Outcome<Stock> {
    if lot !in c.lots then Err(UnknownLot)
    else
      var key := Key(c.lots[lot].product, place, Some(lot));
      match CheckContext(c, key, true)
      case Some(e) => Err(e)
      case None =>
        var delta := quantity - OnHand(s.rows, key);
        if delta == 0.0 then Ok(s) else Record(c, s, Movement(key, delta, Adjustment), false)
  }

  // The projection.

  ghost predicate OneRowEach(rows: seq<Row>) {
    forall i, j :: 0 <= i < j < |rows| ==> rows[i].key != rows[j].key
  }

  ghost predicate Scaled(rows: seq<Row>) {
    forall i :: 0 <= i < |rows| ==> AtScale(rows[i].quantity)
  }

  /** A table as the database keeps it: one row per coordinate, amounts of six decimals. */
  ghost predicate Tidy(rows: seq<Row>) { OneRowEach(rows) && Scaled(rows) }

  /** Each coordinate has a row exactly when it has a movement, only one, and it says what the movements add up to. */
  ghost predicate Agrees(s: Stock) {
    && Tidy(s.rows)
    && (forall key :: HasRow(s.rows, key) <==> HasMoved(s.ledger, key))
    && (forall key :: OnHand(s.rows, key) == Booked(s.ledger, Only(key)))
  }

  ghost predicate NoneNegative(rows: seq<Row>) {
    forall i :: 0 <= i < |rows| ==> rows[i].quantity >= 0.0
  }

  /** Whatever is added up, an upsert adds its quantity where it should and nothing elsewhere. */
  lemma UpsertTotal(rows: seq<Row>, key: Key, quantity: Decimal, picked: Selection)
    ensures Total(Upsert(rows, key, quantity), picked) == Total(rows, picked) + (if picked(key) then quantity else 0.0)
  {
    var i := Find(rows, key);
    if i < |rows| {
      SumUpdate(rows, Held(picked), i, Row(key, rows[i].quantity + quantity));
    } else {
      SumOneMore(rows, Row(key, quantity), Held(picked));
    }
  }

  lemma UpsertScaled(rows: seq<Row>, key: Key, quantity: Decimal)
    requires Scaled(rows) && AtScale(quantity)
    ensures Scaled(Upsert(rows, key, quantity))
  {
    hide AtScale;
    var i := Find(rows, key);
    if i < |rows| { ScaleIsClosed(rows[i].quantity, quantity); }
  }

  /** Sums of stored amounts need no rounding. */
  lemma {:induction false} TotalIsScaled(rows: seq<Row>, picked: Selection)
    requires Scaled(rows)
    ensures AtScale(Total(rows, picked))
  {
    hide AtScale;
    if rows == [] {
      WholeIsStored(0);
    } else {
      var last := |rows| - 1;
      TotalIsScaled(rows[..last], picked);
      ScaleIsClosed(Total(rows[..last], picked), rows[last].quantity);
    }
  }

  lemma UpsertRows(rows: seq<Row>, key: Key, quantity: Decimal)
    ensures OneRowEach(rows) ==> OneRowEach(Upsert(rows, key, quantity))
    ensures forall k :: HasRow(Upsert(rows, key, quantity), k) <==> HasRow(rows, k) || k == key
  {
    var i, after := Find(rows, key), Upsert(rows, key, quantity);
    forall k ensures HasRow(after, k) <==> HasRow(rows, k) || k == key {
      if HasRow(rows, k) {
        var j :| 0 <= j < |rows| && rows[j].key == k;
        assert after[j].key == k;
      }
      if k == key { assert after[i].key == k; }
      if HasRow(after, k) && k != key {
        var j :| 0 <= j < |after| && after[j].key == k;
        assert rows[j].key == k;
      }
    }
  }

  lemma {:induction false} AbsentRow(rows: seq<Row>, key: Key)
    requires !HasRow(rows, key)
    ensures OnHand(rows, key) == 0.0
  {
    if rows != [] {
      var last := |rows| - 1;
      assert rows[last].key != key;
      assert forall i :: 0 <= i < last ==> rows[..last][i] == rows[i];
      AbsentRow(rows[..last], key);
    }
  }

  /** With one row per coordinate, what a coordinate holds is its row. */
  lemma {:induction false} RowIsOnHand(rows: seq<Row>, i: nat)
    requires OneRowEach(rows) && i < |rows|
    ensures OnHand(rows, rows[i].key) == rows[i].quantity
  {
    var last := |rows| - 1;
    if i < last {
      RowIsOnHand(rows[..last], i);
    } else {
      assert !HasRow(rows[..last], rows[last].key);
      AbsentRow(rows[..last], rows[last].key);
    }
  }

  lemma PostKeepsAgreement(s: Stock, m: Movement)
    requires Agrees(s) && AtScale(m.quantity)
    ensures Agrees(Post(s, m))
  {
    hide Total, Booked, AtScale;
    var after := Post(s, m);
    UpsertScaled(s.rows, m.key, m.quantity);
    UpsertRows(s.rows, m.key, m.quantity);
    forall key ensures HasRow(after.rows, key) <==> HasMoved(after.ledger, key) {
      if HasMoved(s.ledger, key) {
        var i :| 0 <= i < |s.ledger| && s.ledger[i].key == key;
        assert after.ledger[i].key == key;
      }
      assert after.ledger[|s.ledger|].key == m.key;
    }
    forall key ensures OnHand(after.rows, key) == Booked(after.ledger, Only(key)) {
      UpsertTotal(s.rows, m.key, m.quantity, Only(key));
      BookedOneMore(s.ledger, m, Only(key));
    }
  }

  lemma BookedOneMore(ledger: seq<Movement>, m: Movement, picked: Selection)
    ensures Booked(ledger + [m], picked) == Booked(ledger, picked) + Moved(picked)(m)
  {
    SumOneMore(ledger, m, Moved(picked));
  }

  /** A decrease that was available before rounding is available once stored. */
  lemma StoredIsAvailable(held: Decimal, quantity: Decimal)
    requires AtScale(held) && held + quantity >= 0.0
    ensures held + Stored(quantity) >= 0.0
  {
    StoredIsMonotone(-held, quantity);
    StoredIsOdd(held);
  }

  /** A movement is refused exactly out of context, or when it takes more than its coordinate holds and is not exempt; a
      decrease without the exemption leaves its coordinate at zero or more. A recorded movement changes every total by
      exactly what is stored of its quantity and is the ledger's last. */
  lemma RecordMeaning(c: Catalog, s: Stock, m: Movement, exempt: bool, picked: Selection)
    requires Scaled(s.rows)
    ensures var r := Record(c, s, m, exempt);
            && (r.Ok? <==> CheckContext(c, m.key, true).None?
                           && (exempt || m.quantity >= 0.0 || OnHand(s.rows, m.key) >= -m.quantity))
            && (r == Err(Insufficient) <==>
                  CheckContext(c, m.key, true).None? && !exempt && m.quantity < 0.0 && OnHand(s.rows, m.key) < -m.quantity)
            && (r.Ok? ==>
                  && r.value.ledger == s.ledger + [Movement(m.key, Stored(m.quantity), m.kind)]
                  && Total(r.value.rows, picked) == Total(s.rows, picked) + Moved(picked)(StoredMovement(m))
                  && (m.quantity < 0.0 && !exempt ==> OnHand(r.value.rows, m.key) >= 0.0))
  {
    hide Total, Upsert, Stored, AtScale;
    ContextMeaning(c, m.key, true);
    var r := Record(c, s, m, exempt);
    UpsertTotal(s.rows, m.key, Stored(m.quantity), picked);
    UpsertTotal(s.rows, m.key, Stored(m.quantity), Only(m.key));
    if r.Ok? && m.quantity < 0.0 && !exempt {
      TotalIsScaled(s.rows, Only(m.key));
      StoredIsAvailable(OnHand(s.rows, m.key), m.quantity);
    }
  }

  lemma RecordKeepsAgreement(c: Catalog, s: Stock, m: Movement, exempt: bool)
    requires Agrees(s)
    ensures Record(c, s, m, exempt).Ok? ==> Agrees(Record(c, s, m, exempt).value)
  {
    hide Agrees, Post, Stored;
    StoredIsAtScale(m.quantity);
    PostKeepsAgreement(s, StoredMovement(m));
  }

  lemma RecordKeepsTidy(c: Catalog, s: Stock, m: Movement, exempt: bool)
    requires Tidy(s.rows)
    ensures Record(c, s, m, exempt).Ok? ==> Tidy(Record(c, s, m, exempt).value.rows)
  {
    hide Upsert, Stored, Total;
    StoredIsAtScale(m.quantity);
    UpsertScaled(s.rows, m.key, Stored(m.quantity));
    UpsertRows(s.rows, m.key, Stored(m.quantity));
  }

  /** What a row holds after a movement that was not exempted. */
  lemma RecordedRow(c: Catalog, s: Stock, m: Movement)
    requires Tidy(s.rows) && Record(c, s, m, false).Ok?
    ensures var i := Find(s.rows, m.key);
            m.quantity < 0.0 || (i < |s.rows| ==> s.rows[i].quantity >= 0.0) ==>
              (if i < |s.rows| then s.rows[i].quantity else 0.0) + Stored(m.quantity) >= 0.0
  {
    hide Total, Stored, AtScale;
    var i := Find(s.rows, m.key);
    if i < |s.rows| { RowIsOnHand(s.rows, i); } else { AbsentRow(s.rows, m.key); }
    TotalIsScaled(s.rows, Only(m.key));
    if m.quantity < 0.0 { StoredIsAvailable(OnHand(s.rows, m.key), m.quantity); } else { StoredIsClose(m.quantity); }
  }

  lemma RecordKeepsNonNegative(c: Catalog, s: Stock, m: Movement)
    requires Tidy(s.rows) && NoneNegative(s.rows)
    ensures Record(c, s, m, false).Ok? ==> NoneNegative(Record(c, s, m, false).value.rows)
  {
    hide Total, Stored, AtScale;
    if Record(c, s, m, false).Ok? { RecordedRow(c, s, m); }
  }

  /** A transfer moves stock and makes none: the product's total is unchanged, the target gains what the source loses,
      the source is not overdrawn, and the ledger has both halves. It is refused only before anything is written. */
  lemma TransferConserves(c: Catalog, s: Stock, product: int, from: Place, to: Place, lot: Option<int>, quantity: Decimal)
    requires quantity > 0.0 && Scaled(s.rows)
    ensures var r, source, target := Transferred(c, s, product, from, to, lot, quantity),
                                     Key(product, from, lot), Key(product, to, lot);
            && (r.Ok? <==> from != to && CheckContext(c, source, true).None? && CheckContext(c, target, true).None?
                           && OnHand(s.rows, source) >= quantity)
            && (r.Ok? ==>
                  && r.value.ledger == s.ledger + [Movement(source, -Stored(quantity), TransferOut),
                                                   Movement(target, Stored(quantity), TransferIn)]
                  && Total(r.value.rows, Of(product)) == Total(s.rows, Of(product))
                  && OnHand(r.value.rows, source) == OnHand(s.rows, source) - Stored(quantity) >= 0.0
                  && OnHand(r.value.rows, target) == OnHand(s.rows, target) + Stored(quantity)
                  && forall k :: k != source && k != target ==> OnHand(r.value.rows, k) == OnHand(s.rows, k))
  {
    hide Total, Upsert, Stored, AtScale;
    var source, target := Key(product, from, lot), Key(product, to, lot);
    var out := Record(c, s, Movement(source, -quantity, TransferOut), false);
    StoredIsOdd(quantity);
    if out.Ok? {
      forall picked: Selection
        ensures Total(Upsert(out.value.rows, target, Stored(quantity)), picked)
             == Total(s.rows, picked) + (if picked(source) then -Stored(quantity) else 0.0)
                + (if picked(target) then Stored(quantity) else 0.0)
      {
        UpsertTotal(s.rows, source, -Stored(quantity), picked);
        UpsertTotal(out.value.rows, target, Stored(quantity), picked);
      }
      TotalIsScaled(s.rows, Only(source));
      StoredIsAvailable(OnHand(s.rows, source), -quantity);
      var r := Transferred(c, s, product, from, to, lot, quantity);
      if r.Ok? {
        assert r.value.rows == Upsert(out.value.rows, target, Stored(quantity));
        assert Of(product)(source) && Of(product)(target);
      }
    }
  }

  /** What is left when a balance is moved to a count: the count itself exactly when the column can hold it. */
  lemma MovedToCount(held: Decimal, quantity: Decimal)
    requires AtScale(held) && quantity >= 0.0
    ensures var now := held + Stored(quantity - held);
            && now >= 0.0 && -0.5 <= (now - quantity) * 1000000.0 <= 0.5
            && (now == quantity <==> AtScale(quantity))
  {
    hide AtScale, Stored;
    StoredIsAvailable(held, quantity - held);
    StoredIsClose(quantity - held);
    StoredIsAtScale(quantity - held);
    ScaleIsClosed(held, Stored(quantity - held));
    if AtScale(quantity) {
      ScaleIsClosed(quantity, held);
      assert Stored(quantity - held) == quantity - held by { StoredOfScale(quantity - held); }
    }
  }

  /** A count is refused only for its lot or its place, never for lack of stock. It leaves the lot within half a millionth
      of what was counted, whatever it said before, and at exactly that when the count has six decimals. It writes a
      movement exactly when there is a difference, an adjustment by it, so the same count again writes nothing exactly
      when it has six decimals. */
  lemma CountIsExact(c: Catalog, s: Stock, lot: int, place: Place, quantity: Decimal)
    requires quantity >= 0.0 && Scaled(s.rows)
    ensures var r := Counted(c, s, lot, place, quantity);
            && r != Err(Insufficient)
            && (r.Ok? <==> lot in c.lots && CheckContext(c, Key(c.lots[lot].product, place, Some(lot)), true).None?)
            && (r.Ok? ==>
                  var key := Key(c.lots[lot].product, place, Some(lot));
                     var now := OnHand(r.value.rows, key);
                     && now >= 0.0 && -0.5 <= (now - quantity) * 1000000.0 <= 0.5
                     && r.value.ledger == s.ledger + (if OnHand(s.rows, key) == quantity then []
                                                      else [Movement(key, Stored(quantity - OnHand(s.rows, key)), Adjustment)])
                     && (forall k :: k != key ==> OnHand(r.value.rows, k) == OnHand(s.rows, k))
                     && (now == quantity <==> AtScale(quantity))
                     && (Counted(c, r.value, lot, place, quantity) == Ok(r.value) <==> AtScale(quantity)))
  {
    hide Total, Upsert, Stored, AtScale;
    if lot in c.lots {
      var key := Key(c.lots[lot].product, place, Some(lot));
      var held := OnHand(s.rows, key);
      var m := StoredMovement(Movement(key, quantity - held, Adjustment));
      ContextMeaning(c, key, true);
      forall k ensures OnHand(Post(s, m).rows, k) == OnHand(s.rows, k) + (if k == key then m.quantity else 0.0) {
        UpsertTotal(s.rows, key, m.quantity, Only(k));
      }
      TotalIsScaled(s.rows, Only(key));
      MovedToCount(held, quantity);
      assert OnHand(Post(s, m).rows, key) == held + Stored(quantity - held);
    }
  }

  /** Too fine a count: the lot stays empty, and every repetition writes another movement of nothing. */
  lemma TooFineACount()
    ensures Stored(0.0000004) == 0.0 && !AtScale(0.0000004)
  {
    assert (0.0000004 * 1000000.0 + 0.5).Floor == 0;
  }

  // Rebuilding the projection.

  ghost function Keys(rows: seq<Row>): seq<Key> { seq(|rows|, i requires 0 <= i < |rows| => rows[i].key) }

  /** The ledger grouped and summed, in whatever order the database lists the groups. */
  function Rebuilt(ledger: seq<Movement>, groups: seq<Key>): seq<Row> {
    seq(|groups|, i requires 0 <= i < |groups| => Row(groups[i], Booked(ledger, Only(groups[i]))))
  }

  /** Both tables say the same of every coordinate. */
  ghost predicate SameTable(a: seq<Row>, b: seq<Row>) {
    && |a| == |b|
    && (forall key :: HasRow(a, key) <==> HasRow(b, key))
    && (forall key :: OnHand(a, key) == OnHand(b, key))
  }

  lemma KeysOnlyOnce(a: seq<Row>, b: seq<Row>)
    requires OneRowEach(a) && OneRowEach(b)
    requires forall key :: HasRow(a, key) <==> HasRow(b, key)
    ensures |a| == |b|
  {
    forall key ensures key in Elements(Keys(a)) <==> key in Elements(Keys(b)) {
      RowIsKey(a, key);
      RowIsKey(b, key);
    }
    assert Elements(Keys(a)) == Elements(Keys(b));
    DistinctCount(Keys(a));
    DistinctCount(Keys(b));
  }

  lemma RowIsKey(rows: seq<Row>, key: Key)
    ensures key in Elements(Keys(rows)) <==> HasRow(rows, key)
  {
    if HasRow(rows, key) {
      var i :| 0 <= i < |rows| && rows[i].key == key;
      assert Keys(rows)[i] == key;
    }
  }

  /** The groups of a ledger: each coordinate that has moved, once. */
  ghost predicate GroupsOf(ledger: seq<Movement>, groups: seq<Key>) {
    Distinct(groups) && forall key :: key in groups <==> HasMoved(ledger, key)
  }

  /** Rebuilding the table from the ledger changes nothing but the order of its rows. */
  lemma RebuildChangesNothing(s: Stock, groups: seq<Key>)
    requires Agrees(s) && GroupsOf(s.ledger, groups)
    ensures SameTable(Rebuilt(s.ledger, groups), s.rows)
    ensures Agrees(Stock(Rebuilt(s.ledger, groups), s.ledger))
    ensures NoneNegative(s.rows) ==> NoneNegative(Rebuilt(s.ledger, groups))
  {
    hide Total, Booked, AtScale;
    var rows := Rebuilt(s.ledger, groups);
    assert OneRowEach(rows);
    forall key ensures HasRow(rows, key) <==> HasMoved(s.ledger, key) {
      if key in groups {
        var i :| 0 <= i < |groups| && groups[i] == key;
        assert rows[i].key == key;
      }
    }
    KeysOnlyOnce(rows, s.rows);
    forall key ensures OnHand(rows, key) == Booked(s.ledger, Only(key)) {
      if HasRow(rows, key) {
        var i :| 0 <= i < |rows| && rows[i].key == key;
        RowIsOnHand(rows, i);
      } else {
        AbsentRow(rows, key);
        assert !HasRow(s.rows, key);
        AbsentRow(s.rows, key);
      }
    }
    forall i | 0 <= i < |rows| ensures AtScale(rows[i].quantity) {
      RowIsOnHand(rows, i);
      TotalIsScaled(s.rows, Only(rows[i].key));
    }
    if NoneNegative(s.rows) {
      forall i | 0 <= i < |rows| ensures rows[i].quantity >= 0.0 {
        assert HasRow(rows, rows[i].key);
        var j :| 0 <= j < |s.rows| && s.rows[j].key == rows[i].key;
        RowIsOnHand(rows, i);
        RowIsOnHand(s.rows, j);
      }
    }
  }

  // The service.

  class Stockroom {
    var catalog: Catalog
    var rows: seq<Row>
    var ledger: seq<Movement>

    ghost function State(): Stock reads this { Stock(rows, ledger) }

    ghost predicate Valid() reads this { Agrees(State()) }

    constructor (catalog: Catalog)
      ensures Valid() && State() == Stock([], []) && this.catalog == catalog
    {
      this.catalog := catalog;
      rows, ledger := [], [];
    }

    method RecordMovement(m: Movement, exempt: bool) returns (error: Option<Error>)
      requires Valid()
      modifies this`rows, this`ledger
      ensures Valid()
      ensures match Record(catalog, old(State()), m, exempt)
              case Err(e) => error == Some(e) && State() == old(State())
              case Ok(after) => error == None && State() == after
    {
      error := CheckContext(catalog, m.key, true);
      if error.Some? { return; }
      if m.quantity < 0.0 && !exempt {
        var available := OnHand(rows, m.key);
        if available + m.quantity < 0.0 { return Some(Insufficient); }
      }
      var stored := StoredMovement(m);
      StoredIsAtScale(m.quantity);
      PostKeepsAgreement(State(), stored);
      ledger := ledger + [stored];
      rows := Upsert(rows, m.key, stored.quantity);
      return None;
    }

    /** A signed administrative correction may leave stock negative; waste may not. */
    method Adjust(key: Key, quantity: Decimal, kind: Kind) returns (error: Option<Error>)
      requires Valid() && (kind.Adjustment? || kind.Waste?)
      modifies this`rows, this`ledger
      ensures Valid()
      ensures match Record(catalog, old(State()), Movement(key, quantity, kind), kind.Adjustment?)
              case Err(e) => error == Some(e) && State() == old(State())
              case Ok(after) => error == None && State() == after
    {
      error := RecordMovement(Movement(key, quantity, kind), kind == Adjustment);
    }

    method Transfer(product: int, from: Place, to: Place, lot: Option<int>, quantity: Decimal) returns (error: Option<Error>)
      requires Valid() && quantity > 0.0
      modifies this`rows, this`ledger
      ensures Valid()
      ensures match Transferred(catalog, old(State()), product, from, to, lot, quantity)
              case Err(e) => error == Some(e) && State() == old(State())
              case Ok(after) => error == None && State() == after
    {
      if from == to { return Some(SamePlace); }
      error := CheckContext(catalog, Key(product, from, lot), true);
      if error.Some? { return; }
      error := CheckContext(catalog, Key(product, to, lot), true);
      if error.Some? { return; }
      error := RecordMovement(Movement(Key(product, from, lot), -quantity, TransferOut), false);
      if error.Some? { return; }
      error := RecordMovement(Movement(Key(product, to, lot), quantity, TransferIn), false);
    }

    method SetLotStock(lot: int, place: Place, quantity: Decimal) returns (error: Option<Error>)
      requires Valid() && quantity >= 0.0
      modifies this`rows, this`ledger
      ensures Valid()
      ensures match Counted(catalog, old(State()), lot, place, quantity)
              case Err(e) => error == Some(e) && State() == old(State())
              case Ok(after) => error == None && State() == after
    {
      hide OnHand, CheckContext, Record, Agrees;
      if lot !in catalog.lots { return Some(UnknownLot); }
      var key := Key(catalog.lots[lot].product, place, Some(lot));
      error := CheckContext(catalog, key, true);
      if error.Some? { return; }
      var delta := quantity - OnHand(rows, key);
      if delta != 0.0 {
        error := RecordMovement(Movement(key, delta, Adjustment), false);
      }
    }

    /** Delete every row and write one per group of the ledger. */
    method Rebuild(groups: seq<Key>)
      requires Valid() && GroupsOf(ledger, groups)
      modifies this`rows
      ensures Valid() && rows == Rebuilt(ledger, groups) && SameTable(rows, old(rows))
    {
      hide Total, Booked;
      RebuildChangesNothing(State(), groups);
      rows := [];
      for i := 0 to |groups|
        invariant rows == Rebuilt(ledger, groups)[..i]
      {
        rows := rows + [Row(groups[i], Booked(ledger, Only(groups[i])))];
      }
      assert State() == Stock(Rebuilt(ledger, groups), ledger);
    }
  }
}
