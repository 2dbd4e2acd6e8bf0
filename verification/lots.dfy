/** First expired, first out: which lots a quantity is drawn from, and the drawing of it. */
module Lots {
  import opened Money
  import opened Sums
  import opened Sorting
  import opened Inventory

  datatype LotBalance = LotBalance(lot: int, expiry: Option<int>, quantity: Decimal)

  datatype Allocation = Allocation(lot: int, quantity: Decimal)

  /** Earliest expiry first, undated lots last, then by id. */
  function ExpiresFirst(a: LotBalance, b: LotBalance): bool {
    if a.expiry.Some? && b.expiry.Some? then
      a.expiry.value < b.expiry.value || (a.expiry.value == b.expiry.value && a.lot <= b.lot)
    else if a.expiry.None? && b.expiry.None? then a.lot <= b.lot
    else a.expiry.Some?
  }

  /** Whether a balance row joins one of the product's lots at the place and has something left. */
  predicate InStock(c: Catalog, product: int, place: Place, r: Row) {
    && r.key.product == product && r.key.place == place && r.quantity > 0.0
    && r.key.lot.Some? && r.key.lot.value in c.lots && c.lots[r.key.lot.value].product == product
  }

  function Joined(c: Catalog, rows: seq<Row>, product: int, place: Place): seq<LotBalance> {
    if rows == [] then []
    else
      var r, before := rows[|rows| - 1], Joined(c, rows[..|rows| - 1], product, place);
      if InStock(c, product, place, r) then
        before + [LotBalance(r.key.lot.value, c.lots[r.key.lot.value].expiry, r.quantity)]
      else before
  }

  function LotBalances(c: Catalog, rows: seq<Row>, product: int, place: Place): seq<LotBalance> {
    Sort(Joined(c, rows, product, place), ExpiresFirst)
  }

  function InLot(lot: int): LotBalance -> Decimal { (b: LotBalance) => if b.lot == lot then b.quantity else 0.0 }
  function TakenFrom(lot: int): Allocation -> Decimal { (a: Allocation) => if a.lot == lot then a.quantity else 0.0 }

  function Available(lots: seq<LotBalance>): Decimal { Sum(lots, (b: LotBalance) => b.quantity) }
  function Drawn(plan: seq<Allocation>): Decimal { Sum(plan, (a: Allocation) => a.quantity) }

  function Min(a: Decimal, b: Decimal): Decimal { if a <= b then a else b }

  /** The greedy draw. */
  function Plan(lots: seq<LotBalance>, quantity: Decimal): seq<Allocation> {
    if lots == [] then []
    else
      var before, b := Plan(lots[..|lots| - 1], quantity), lots[|lots| - 1];
      if quantity - Drawn(before) <= 0.0 then before
      else before + [Allocation(b.lot, Min(b.quantity, quantity - Drawn(before)))]
  }

  function PlanFefo(c: Catalog, rows: seq<Row>, product: int, place: Place, quantity: Decimal): Outcome<seq<Allocation>> {
    match CheckContext(c, Key(product, place, None), false)
    case Some(e) => Err(e)
    case None =>
      if !c.lotTracked[product] then Err(NotLotTracked)
      else
        var plan := Plan(LotBalances(c, rows, product, place), quantity);
        if quantity - Drawn(plan) > 0.0 then Err(Insufficient) else Ok(plan)
  }

  /** The plan's movements, one after another; any refusal would end it. */
  function Draw(c: Catalog, s: Stock, product: int, place: Place, plan: seq<Allocation>, kind: Kind): Outcome<Stock> {
    if plan == [] then Ok(s)
    else
      var a := plan[|plan| - 1];
      match Draw(c, s, product, place, plan[..|plan| - 1], kind)
      case Err(e) => Err(e)
      case Ok(t) => Record(c, t, Movement(Key(product, place, Some(a.lot)), -a.quantity, kind), false)
  }

  function Consume(c: Catalog, s: Stock, product: int, place: Place, quantity: Decimal, kind: Kind): Outcome<Stock> {
    match PlanFefo(c, s.rows, product, place, quantity)
    case Err(e) => Err(e)
    case Ok(plan) => Draw(c, s, product, place, plan, kind)
  }

  // What the plan is.

  ghost predicate AllPositive(lots: seq<LotBalance>) {
    forall i :: 0 <= i < |lots| ==> lots[i].quantity > 0.0
  }

  /** Everything there is, or everything asked for, whichever is less. */
  lemma {:induction false} PlanDraws(lots: seq<LotBalance>, quantity: Decimal)
    requires AllPositive(lots) && quantity >= 0.0
    ensures Drawn(Plan(lots, quantity)) == Min(quantity, Available(lots))
  {
    if lots != [] {
      var last := |lots| - 1;
      var before := Plan(lots[..last], quantity);
      PlanDraws(lots[..last], quantity);
      var a := Allocation(lots[last].lot, Min(lots[last].quantity, quantity - Drawn(before)));
      assert (before + [a])[..|before|] == before;
    }
  }

  /** The plan for the first lots is the beginning of the plan for all of them. */
  lemma {:induction false} PlanOfPrefix(lots: seq<LotBalance>, quantity: Decimal, k: nat)
    requires k <= |lots|
    ensures Plan(lots[..k], quantity) <= Plan(lots, quantity)
    ensures |Plan(lots, quantity)| <= |lots|
    ensures |Plan(lots[..k], quantity)| < k ==> Plan(lots, quantity) == Plan(lots[..k], quantity)
  {
    hide Drawn;
    PlanIsShort(lots, quantity);
    if k < |lots| {
      var last := |lots| - 1;
      PlanOfPrefix(lots[..last], quantity, k);
      assert lots[..last][..k] == lots[..k];
      if |Plan(lots[..k], quantity)| < k { ShortPlanIsDone(lots[..last], quantity); }
    } else {
      assert lots[..k] == lots;
    }
  }

  lemma {:induction false} PlanIsShort(lots: seq<LotBalance>, quantity: Decimal)
    ensures |Plan(lots, quantity)| <= |lots|
  {
    if lots != [] { PlanIsShort(lots[..|lots| - 1], quantity); }
  }

  lemma {:induction false} ShortPlanIsDone(lots: seq<LotBalance>, quantity: Decimal)
    requires |Plan(lots, quantity)| < |lots|
    ensures quantity - Drawn(Plan(lots, quantity)) <= 0.0
  {
    PlanIsShort(lots[..|lots| - 1], quantity);
    if |Plan(lots[..|lots| - 1], quantity)| < |lots| - 1 { ShortPlanIsDone(lots[..|lots| - 1], quantity); }
  }

  lemma {:induction false} PlanIsInOrder(lots: seq<LotBalance>, quantity: Decimal)
    requires AllPositive(lots)
    ensures var plan := Plan(lots, quantity);
            |plan| <= |lots| && forall i :: 0 <= i < |plan| ==>
              plan[i].lot == lots[i].lot && 0.0 < plan[i].quantity <= lots[i].quantity
  {
    hide Drawn;
    PlanIsShort(lots, quantity);
    if lots != [] {
      var last := |lots| - 1;
      var before := Plan(lots[..last], quantity);
      PlanIsInOrder(lots[..last], quantity);
      if |before| < last { ShortPlanIsDone(lots[..last], quantity); }
    }
  }

  /** Only the last lot is drawn in part, and it too is drawn whole while something is missing. */
  lemma {:induction false} AllButLastAreWhole(lots: seq<LotBalance>, quantity: Decimal)
    ensures var plan := Plan(lots, quantity);
            && |plan| <= |lots|
            && (forall i :: 0 <= i < |plan| - 1 ==> plan[i].quantity == lots[i].quantity)
            && (plan != [] && quantity - Drawn(plan) > 0.0 ==> plan[|plan| - 1].quantity == lots[|plan| - 1].quantity)
  {
    hide Drawn;
    PlanIsShort(lots, quantity);
    if lots != [] {
      var last := |lots| - 1;
      var before := Plan(lots[..last], quantity);
      AllButLastAreWhole(lots[..last], quantity);
      if quantity - Drawn(before) > 0.0 {
        if |before| < last { ShortPlanIsDone(lots[..last], quantity); }
        var a := Allocation(lots[last].lot, Min(lots[last].quantity, quantity - Drawn(before)));
        DrawnOneMore(before, a);
      }
    }
  }

  lemma DrawnOneMore(plan: seq<Allocation>, a: Allocation)
    ensures Drawn(plan + [a]) == Drawn(plan) + a.quantity
  {
    SumOneMore(plan, a, (b: Allocation) => b.quantity);
  }

  /** The characterisation: positive parts of the lots in order, and from the first k lots, for every k, all that they
      hold or all that was asked for. */
  ghost predicate DrawsInOrder(lots: seq<LotBalance>, quantity: Decimal, plan: seq<Allocation>) {
    && |plan| <= |lots|
    && (forall i :: 0 <= i < |plan| ==> plan[i].lot == lots[i].lot && 0.0 < plan[i].quantity <= lots[i].quantity)
    && (forall k: nat :: k <= |lots| ==>
          Drawn(if k <= |plan| then plan[..k] else plan) == Min(quantity, Available(lots[..k])))
  }

  lemma {:induction false} PlanOfFirst(lots: seq<LotBalance>, quantity: Decimal, k: nat)
    requires k <= |lots|
    ensures var plan := Plan(lots, quantity);
            Plan(lots[..k], quantity) == if k <= |plan| then plan[..k] else plan
  {
    hide Plan;
    PlanOfPrefix(lots, quantity, k);
    PlanIsShort(lots[..k], quantity);
  }

  lemma {:induction false} PlanDrawsInOrder(lots: seq<LotBalance>, quantity: Decimal)
    requires AllPositive(lots) && quantity >= 0.0
    ensures DrawsInOrder(lots, quantity, Plan(lots, quantity))
  {
    hide Plan, Drawn, Available;
    var plan := Plan(lots, quantity);
    PlanIsInOrder(lots, quantity);
    forall k: nat | k <= |lots|
      ensures Drawn(if k <= |plan| then plan[..k] else plan) == Min(quantity, Available(lots[..k]))
    {
      PlanDraws(lots[..k], quantity);
      PlanOfFirst(lots, quantity, k);
    }
  }

  /** And nothing else is such a draw. */
  lemma {:induction false} OnlyThePlan(lots: seq<LotBalance>, quantity: Decimal, plan: seq<Allocation>)
    requires AllPositive(lots) && quantity >= 0.0 && DrawsInOrder(lots, quantity, plan)
    ensures plan == Plan(lots, quantity)
  {
    PlanDrawsInOrder(lots, quantity);
    SameDraws(lots, quantity, plan, Plan(lots, quantity));
    SameDraws(lots, quantity, Plan(lots, quantity), plan);
  }

  lemma DrawnGrows(plan: seq<Allocation>, i: nat)
    requires i < |plan|
    ensures Drawn(plan[..i + 1]) == Drawn(plan[..i]) + plan[i].quantity
  {
    assert plan[..i + 1][..i] == plan[..i];
  }

  lemma SameDrawAt(lots: seq<LotBalance>, quantity: Decimal, a: seq<Allocation>, b: seq<Allocation>, i: nat)
    requires DrawsInOrder(lots, quantity, a) && DrawsInOrder(lots, quantity, b) && i < |a|
    ensures i < |b| && a[i] == b[i]
  {
    hide Drawn, Available;
    DrawnGrows(a, i);
    assert Drawn(a[..i]) == Min(quantity, Available(lots[..i]));
    assert Drawn(a[..i + 1]) == Min(quantity, Available(lots[..i + 1]));
    assert b[..|b|] == b;
    if i < |b| { DrawnGrows(b, i); }
  }

  lemma SameDraws(lots: seq<LotBalance>, quantity: Decimal, a: seq<Allocation>, b: seq<Allocation>)
    requires DrawsInOrder(lots, quantity, a) && DrawsInOrder(lots, quantity, b)
    ensures a <= b
  {
    hide DrawsInOrder;
    if a != [] { SameDrawAt(lots, quantity, a, b, |a| - 1); }
    forall i: nat | i < |a| ensures i < |b| && a[i] == b[i] {
      SameDrawAt(lots, quantity, a, b, i);
    }
  }

  // The lots of a place, and its balance rows.

  lemma ExpiryIsAnOrder()
    ensures TotalOrder(ExpiresFirst)
  {}

  lemma {:induction false} JoinedArePositive(c: Catalog, rows: seq<Row>, product: int, place: Place)
    ensures forall b :: b in Joined(c, rows, product, place) ==> b.quantity > 0.0
    ensures forall b :: b in Joined(c, rows, product, place) ==>
              b.lot in c.lots && c.lots[b.lot].product == product && c.lots[b.lot].expiry == b.expiry
  {
    if rows != [] { JoinedArePositive(c, rows[..|rows| - 1], product, place); }
  }

  lemma {:induction false} JoinedAreScaled(c: Catalog, rows: seq<Row>, product: int, place: Place)
    requires Scaled(rows)
    ensures forall b :: b in Joined(c, rows, product, place) ==> AtScale(b.quantity)
  {
    hide AtScale;
    if rows != [] { JoinedAreScaled(c, rows[..|rows| - 1], product, place); }
  }

  lemma BalancesAreScaled(c: Catalog, rows: seq<Row>, product: int, place: Place)
    requires Scaled(rows)
    ensures var lots := LotBalances(c, rows, product, place);
            forall i :: 0 <= i < |lots| ==> AtScale(lots[i].quantity)
  {
    hide AtScale, Joined, Sort;
    JoinedAreScaled(c, rows, product, place);
    SameElements(Joined(c, rows, product, place), ExpiresFirst);
  }

  lemma BalancesAreSorted(c: Catalog, rows: seq<Row>, product: int, place: Place)
    ensures var lots := LotBalances(c, rows, product, place);
            && SortedBy(lots, ExpiresFirst) && AllPositive(lots)
            && (forall b :: b in lots ==> b.lot in c.lots && c.lots[b.lot].product == product && c.lots[b.lot].expiry == b.expiry)
  {
    ExpiryIsAnOrder();
    SortIsSorted(Joined(c, rows, product, place), ExpiresFirst);
    SameElements(Joined(c, rows, product, place), ExpiresFirst);
    JoinedArePositive(c, rows, product, place);
  }

  /** The lots of the product with something left at the place: dated before undated, the earlier date before the later,
      and the lower id before the higher when neither tells them apart. */
  lemma BalancesAreInOrder(c: Catalog, rows: seq<Row>, product: int, place: Place)
    ensures var lots := LotBalances(c, rows, product, place);
            && AllPositive(lots)
            && (forall b :: b in lots ==> b.lot in c.lots && c.lots[b.lot].product == product && c.lots[b.lot].expiry == b.expiry)
            && forall i, j :: 0 <= i < j < |lots| ==>
                 var a, b := lots[i], lots[j];
                 && (b.expiry.Some? ==> a.expiry.Some? && a.expiry.value <= b.expiry.value)
                 && (a.expiry == b.expiry ==> a.lot <= b.lot)
  {
    hide LotBalances;
    BalancesAreSorted(c, rows, product, place);
  }

  /** Each lot is listed with exactly what its row holds, if that is positive and the lot is the product's. */
  ghost function Usable(c: Catalog, rows: seq<Row>, product: int, place: Place, lot: int): Decimal {
    var held := OnHand(rows, Key(product, place, Some(lot)));
    if held > 0.0 && lot in c.lots && c.lots[lot].product == product then held else 0.0
  }

  lemma {:induction false} JoinedLot(c: Catalog, rows: seq<Row>, product: int, place: Place, lot: int)
    requires OneRowEach(rows)
    ensures Sum(Joined(c, rows, product, place), InLot(lot)) == Usable(c, rows, product, place, lot)
  {
    if rows != [] {
      var last := |rows| - 1;
      var key, r, before := Key(product, place, Some(lot)), rows[last], Joined(c, rows[..last], product, place);
      JoinedLot(c, rows[..last], product, place, lot);
      if r.key == key {
        assert !HasRow(rows[..last], key);
        AbsentRow(rows[..last], key);
      }
      if InStock(c, product, place, r) {
        SumOneMore(before, LotBalance(r.key.lot.value, c.lots[r.key.lot.value].expiry, r.quantity), InLot(lot));
      }
    }
  }

  lemma BalanceOfLot(c: Catalog, rows: seq<Row>, product: int, place: Place, lot: int)
    requires OneRowEach(rows)
    ensures Sum(LotBalances(c, rows, product, place), InLot(lot)) == Usable(c, rows, product, place, lot)
  {
    JoinedLot(c, rows, product, place, lot);
    SumIsOrderFree(LotBalances(c, rows, product, place), Joined(c, rows, product, place), InLot(lot));
  }

  // Drawing it.

  function Taken(plan: seq<Allocation>, lot: int): Decimal { Sum(plan, TakenFrom(lot)) }

  /** What a draw takes from one coordinate. */
  function TakenAt(plan: seq<Allocation>, product: int, place: Place, key: Key): Decimal {
    if key.product == product && key.place == place && key.lot.Some? then Taken(plan, key.lot.value) else 0.0
  }

  lemma {:induction false} NoMoreThanListed(lots: seq<LotBalance>, plan: seq<Allocation>, n: nat, lot: int)
    requires AllPositive(lots) && n <= |plan| <= |lots|
    requires forall i :: 0 <= i < |plan| ==> plan[i].lot == lots[i].lot && plan[i].quantity <= lots[i].quantity
    ensures Taken(plan[..n], lot) <= Sum(lots[..n], InLot(lot)) <= Sum(lots, InLot(lot))
  {
    if n == 0 {
      SumIsNonNegative(lots, lot);
    } else {
      NoMoreThanListed(lots, plan, n - 1, lot);
      assert plan[..n][..n - 1] == plan[..n - 1];
      assert lots[..n][..n - 1] == lots[..n - 1];
      SumIsNonNegative(lots[n..], lot);
      SumAppend(lots[..n], lots[n..], InLot(lot));
      assert lots == lots[..n] + lots[n..];
    }
  }

  lemma {:induction false} SumIsNonNegative(lots: seq<LotBalance>, lot: int)
    requires AllPositive(lots)
    ensures Sum(lots, InLot(lot)) >= 0.0
  {
    if lots != [] { SumIsNonNegative(lots[..|lots| - 1], lot); }
  }

  /** A plan that takes from each lot no more than it usably holds. */
  ghost predicate Affordable(c: Catalog, s: Stock, product: int, place: Place, plan: seq<Allocation>) {
    && (forall i :: 0 <= i < |plan| ==>
          && plan[i].quantity >= 0.0
          && CheckContext(c, Key(product, place, Some(plan[i].lot)), true).None?)
    && (forall n: nat, lot :: n <= |plan| ==>
          Taken(plan[..n], lot) <= Usable(c, s.rows, product, place, lot))
  }

  lemma TakenGrows(plan: seq<Allocation>, n: nat, lot: int)
    requires n < |plan|
    ensures Taken(plan[..n + 1], lot) == Taken(plan[..n], lot) + TakenFrom(lot)(plan[n])
  {
    assert plan[..n + 1][..n] == plan[..n];
  }

  /** The plan as the ledger keeps it. */
  function Kept(plan: seq<Allocation>): seq<Allocation> {
    seq(|plan|, i requires 0 <= i < |plan| => Allocation(plan[i].lot, Stored(plan[i].quantity)))
  }

  /** Only the last draw may need rounding. */
  ghost predicate AlmostScaled(plan: seq<Allocation>) {
    forall i :: 0 <= i < |plan| - 1 ==> AtScale(plan[i].quantity)
  }

  lemma ScaledPlanIsKept(plan: seq<Allocation>)
    requires forall i :: 0 <= i < |plan| ==> AtScale(plan[i].quantity)
    ensures Kept(plan) == plan
  {}

  lemma PartsAreKept(plan: seq<Allocation>, n: nat)
    requires n < |plan| && AlmostScaled(plan)
    ensures Kept(plan[..n]) == plan[..n]
    ensures Kept(plan[..n + 1]) == plan[..n] + [Allocation(plan[n].lot, Stored(plan[n].quantity))]
  {
    hide Stored, AtScale;
    forall i | 0 <= i < n ensures Stored(plan[i].quantity) == plan[i].quantity { StoredOfScale(plan[i].quantity); }
  }

  /** What is kept of a plan adds up to what is kept of its total. */
  lemma KeptDraws(plan: seq<Allocation>, quantity: Decimal)
    requires AlmostScaled(plan) && Drawn(plan) == quantity && forall i :: 0 <= i < |plan| ==> plan[i].quantity >= 0.0
    ensures Drawn(Kept(plan)) == Stored(quantity)
  {
    hide Stored, AtScale;
    if plan == [] {
      WholeIsStored(0);
      StoredOfScale(0.0);
    } else {
      var n := |plan| - 1;
      PartsAreKept(plan, n);
      assert plan[..n + 1] == plan;
      DrawnOneMore(plan[..n], Allocation(plan[n].lot, Stored(plan[n].quantity)));
      DrawnIsScaled(plan[..n]);
      StoredShift(Drawn(plan[..n]), plan[n].quantity);
    }
  }

  lemma {:induction false} DrawnIsScaled(plan: seq<Allocation>)
    requires forall i :: 0 <= i < |plan| ==> AtScale(plan[i].quantity)
    ensures AtScale(Drawn(plan))
    ensures (forall i :: 0 <= i < |plan| ==> plan[i].quantity >= 0.0) ==> Drawn(plan) >= 0.0
  {
    hide AtScale;
    if plan == [] {
      WholeIsStored(0);
    } else {
      var n := |plan| - 1;
      DrawnIsScaled(plan[..n]);
      ScaleIsClosed(Drawn(plan[..n]), plan[n].quantity);
    }
  }

  lemma {:induction false} TakenIsScaled(plan: seq<Allocation>, lot: int)
    requires forall i :: 0 <= i < |plan| ==> AtScale(plan[i].quantity)
    ensures AtScale(Taken(plan, lot))
  {
    hide AtScale;
    if plan == [] {
      WholeIsStored(0);
    } else {
      var n := |plan| - 1;
      TakenIsScaled(plan[..n], lot);
      ScaleIsClosed(Taken(plan[..n], lot), plan[n].quantity);
    }
  }

  /** What has been drawn after some of the plan. */
  ghost predicate DrewKept(s: Stock, t: Stock, product: int, place: Place, plan: seq<Allocation>) {
    forall key :: OnHand(t.rows, key) == OnHand(s.rows, key) - TakenAt(Kept(plan), product, place, key)
  }

  /** The i-th draw is never refused, and the first n of them take what is kept of them, from where they say. */
  lemma {:induction false} DrawSucceeds(c: Catalog, s: Stock, product: int, place: Place, plan: seq<Allocation>,
                                        kind: Kind, n: nat)
    requires n <= |plan| && Affordable(c, s, product, place, plan) && AlmostScaled(plan)
    ensures var r := Draw(c, s, product, place, plan[..n], kind);
            r.Ok? && DrewKept(s, r.value, product, place, plan[..n])
  {
    hide OnHand, Taken, Upsert, CheckContext, AlmostScaled;
    if n > 0 {
      DrawSucceeds(c, s, product, place, plan, kind, n - 1);
      assert plan[..n][..n - 1] == plan[..n - 1];
      hide DrewKept;
      DrawOneMore(c, s, product, place, plan, kind, n - 1);
    } else {
      assert Kept(plan[..0]) == plan[..0];
      NothingTaken(plan);
    }
  }

  /** The ledger's entries for a drawing: one for each lot, of the given kind, with the quantity as it is kept. */
  function Drawings(product: int, place: Place, plan: seq<Allocation>, kind: Kind): seq<Movement> {
    seq(|plan|, i requires 0 <= i < |plan| =>
      Movement(Key(product, place, Some(plan[i].lot)), -Stored(plan[i].quantity), kind))
  }

  lemma {:induction false} DrawWrites(c: Catalog, s: Stock, product: int, place: Place, plan: seq<Allocation>, kind: Kind)
    ensures var r := Draw(c, s, product, place, plan, kind);
            r.Ok? ==> r.value.ledger == s.ledger + Drawings(product, place, plan, kind)
  {
    hide Stored, Upsert, Total, CheckContext;
    var r := Draw(c, s, product, place, plan, kind);
    if plan != [] && r.Ok? {
      var front, a := plan[..|plan| - 1], plan[|plan| - 1];
      DrawWrites(c, s, product, place, front, kind);
      StoredIsOdd(a.quantity);
      var m := Movement(Key(product, place, Some(a.lot)), -Stored(a.quantity), kind);
      assert Drawings(product, place, plan, kind) == Drawings(product, place, front, kind) + [m];
      assert r.value.ledger == Draw(c, s, product, place, front, kind).value.ledger + [m];
    }
  }

  lemma NothingTaken(plan: seq<Allocation>)
    ensures forall lot :: Taken(plan[..0], lot) == 0.0
  {}

  lemma DrawOneMore(c: Catalog, s: Stock, product: int, place: Place, plan: seq<Allocation>, kind: Kind, n: nat)
    requires n < |plan| && Affordable(c, s, product, place, plan) && AlmostScaled(plan)
    requires Draw(c, s, product, place, plan[..n], kind).Ok?
    requires DrewKept(s, Draw(c, s, product, place, plan[..n], kind).value, product, place, plan[..n])
    ensures var r := Draw(c, s, product, place, plan[..n + 1], kind);
            r.Ok? && DrewKept(s, r.value, product, place, plan[..n + 1])
  {
    hide Total, Taken, Upsert, CheckContext, Stored, AtScale, Kept;
    var t := Draw(c, s, product, place, plan[..n], kind).value;
    var spent := Key(product, place, Some(plan[n].lot));
    var m := Movement(spent, -plan[n].quantity, kind);
    assert plan[..n + 1][..n] == plan[..n];
    PartsAreKept(plan, n);
    TakenGrows(plan, n, plan[n].lot);
    assert Taken(plan[..n + 1], plan[n].lot) <= Usable(c, s.rows, product, place, plan[n].lot);
    if plan[n].quantity > 0.0 {
      TakenIsNonNegative(c, s, product, place, plan, n, plan[n].lot);
      assert Usable(c, s.rows, product, place, plan[n].lot) <= OnHand(s.rows, spent);
    }
    var r := Record(c, t, m, false);
    StoredIsOdd(plan[n].quantity);
    assert r == Ok(Post(t, StoredMovement(m)));
    forall key
      ensures OnHand(r.value.rows, key) == OnHand(s.rows, key) - TakenAt(Kept(plan[..n + 1]), product, place, key)
    {
      UpsertTotal(t.rows, spent, -Stored(plan[n].quantity), Only(key));
      if key.lot.Some? { TakenOneMore(plan[..n], Allocation(plan[n].lot, Stored(plan[n].quantity)), key.lot.value); }
    }
  }

  lemma TakenOneMore(plan: seq<Allocation>, a: Allocation, lot: int)
    ensures Taken(plan + [a], lot) == Taken(plan, lot) + TakenFrom(lot)(a)
  {
    SumOneMore(plan, a, TakenFrom(lot));
  }

  lemma {:induction false} TakenIsNonNegative(c: Catalog, s: Stock, product: int, place: Place, plan: seq<Allocation>,
                                              n: nat, lot: int)
    requires n <= |plan| && Affordable(c, s, product, place, plan)
    ensures Taken(plan[..n], lot) >= 0.0
  {
    hide Usable, CheckContext;
    if n > 0 {
      TakenIsNonNegative(c, s, product, place, plan, n - 1, lot);
      TakenGrows(plan, n - 1, lot);
    }
  }

  lemma PlanIsInContext(c: Catalog, s: Stock, product: int, place: Place, quantity: Decimal, i: nat)
    requires PlanFefo(c, s.rows, product, place, quantity).Ok?
    requires i < |PlanFefo(c, s.rows, product, place, quantity).value|
    ensures var a := PlanFefo(c, s.rows, product, place, quantity).value[i];
            a.quantity >= 0.0 && CheckContext(c, Key(product, place, Some(a.lot)), true).None?
  {
    hide LotBalances, Plan, Drawn;
    var lots := LotBalances(c, s.rows, product, place);
    BalancesAreInOrder(c, s.rows, product, place);
    PlanIsInOrder(lots, quantity);
    assert lots[i] in lots;
  }

  lemma PlanIsInStock(c: Catalog, s: Stock, product: int, place: Place, quantity: Decimal, n: nat, lot: int)
    requires OneRowEach(s.rows) && n <= |Plan(LotBalances(c, s.rows, product, place), quantity)|
    ensures Taken(Plan(LotBalances(c, s.rows, product, place), quantity)[..n], lot) <= Usable(c, s.rows, product, place, lot)
  {
    hide LotBalances, Plan, Taken, Usable, Sum, OneRowEach;
    var lots := LotBalances(c, s.rows, product, place);
    BalancesAreInOrder(c, s.rows, product, place);
    PlanIsInOrder(lots, quantity);
    NoMoreThanListed(lots, Plan(lots, quantity), n, lot);
    BalanceOfLot(c, s.rows, product, place, lot);
  }

  lemma PlanIsAffordable(c: Catalog, s: Stock, product: int, place: Place, quantity: Decimal)
    requires OneRowEach(s.rows) && quantity >= 0.0
    requires PlanFefo(c, s.rows, product, place, quantity).Ok?
    ensures Affordable(c, s, product, place, PlanFefo(c, s.rows, product, place, quantity).value)
  {
    hide LotBalances, Plan, Drawn, Taken, Usable, OneRowEach, CheckContext;
    var plan := PlanFefo(c, s.rows, product, place, quantity).value;
    forall i: nat | i < |plan|
      ensures plan[i].quantity >= 0.0 && CheckContext(c, Key(product, place, Some(plan[i].lot)), true).None?
    {
      PlanIsInContext(c, s, product, place, quantity, i);
    }
    forall n: nat, lot | n <= |plan| ensures Taken(plan[..n], lot) <= Usable(c, s.rows, product, place, lot) {
      PlanIsInStock(c, s, product, place, quantity, n, lot);
    }
  }

  lemma FefoDecides(c: Catalog, s: Stock, product: int, place: Place, quantity: Decimal)
    requires quantity >= 0.0 && CheckContext(c, Key(product, place, None), false).None? && c.lotTracked[product]
    ensures var lots, r := LotBalances(c, s.rows, product, place), PlanFefo(c, s.rows, product, place, quantity);
            && AllPositive(lots)
            && (r.Ok? <==> Available(lots) >= quantity) && (r.Err? ==> r.error == Insufficient)
            && (r.Ok? ==> r.value == Plan(lots, quantity) && Drawn(r.value) == quantity)
  {
    hide LotBalances, Plan, Drawn, Available, CheckContext;
    BalancesAreInOrder(c, s.rows, product, place);
    PlanDraws(LotBalances(c, s.rows, product, place), quantity);
  }

  lemma PlanIsAlmostScaled(c: Catalog, s: Stock, product: int, place: Place, quantity: Decimal)
    requires Scaled(s.rows)
    ensures var plan := Plan(LotBalances(c, s.rows, product, place), quantity);
            && AlmostScaled(plan)
            && (AtScale(quantity) && Drawn(plan) == quantity ==> Kept(plan) == plan)
  {
    hide LotBalances, Plan, Stored, AtScale;
    var lots := LotBalances(c, s.rows, product, place);
    var plan := Plan(lots, quantity);
    BalancesAreScaled(c, s.rows, product, place);
    AllButLastAreWhole(lots, quantity);
    if plan != [] && AtScale(quantity) && Drawn(plan) == quantity {
      LastIsScaled(plan, quantity);
      ScaledPlanIsKept(plan);
    } else {
      assert plan == [] ==> Kept(plan) == plan;
    }
  }

  lemma LastIsScaled(plan: seq<Allocation>, quantity: Decimal)
    requires plan != [] && AlmostScaled(plan) && AtScale(quantity) && Drawn(plan) == quantity
    ensures AtScale(plan[|plan| - 1].quantity)
  {
    hide AtScale;
    var n := |plan| - 1;
    DrawnIsScaled(plan[..n]);
    ScaleIsClosed(quantity, Drawn(plan[..n]));
  }

  /** The whole of FEFO. It succeeds exactly when the positive stock of the lots covers the request; it then draws in
      order of expiry, is never refused midway, writes one entry of its kind for each lot, takes what the ledger keeps of
      the plan, and overdraws no lot. The ledger keeps the plan itself when the request has six decimals. */
  lemma FefoMeaning(c: Catalog, s: Stock, product: int, place: Place, quantity: Decimal, kind: Kind)
    requires Tidy(s.rows) && quantity >= 0.0
    requires CheckContext(c, Key(product, place, None), false).None? && c.lotTracked[product]
    ensures var lots, r := LotBalances(c, s.rows, product, place), Consume(c, s, product, place, quantity, kind);
            var plan := Plan(lots, quantity);
            && (r.Ok? <==> Available(lots) >= quantity)
            && (r.Err? ==> r.error == Insufficient)
            && (r.Ok? ==>
                  && DrawsInOrder(lots, quantity, plan) && Drawn(plan) == quantity
                  && r.value.ledger == s.ledger + Drawings(product, place, plan, kind)
                  && Drawn(Kept(plan)) == Stored(quantity) && (AtScale(quantity) ==> Kept(plan) == plan)
                  && (forall key :: OnHand(r.value.rows, key)
                                 == OnHand(s.rows, key) - TakenAt(Kept(plan), product, place, key))
                  && (forall a :: a in plan ==> OnHand(r.value.rows, Key(product, place, Some(a.lot))) >= 0.0))
  {
    hide OnHand, Taken, CheckContext, LotBalances, Plan, Drawn, Available, DrawsInOrder, Affordable, PlanFefo, Draw, Kept, Drawings;
    hide AlmostScaled, AtScale, Stored;
    var lots := LotBalances(c, s.rows, product, place);
    var plan := Plan(lots, quantity);
    FefoDecides(c, s, product, place, quantity);
    if Available(lots) >= quantity {
      PlanIsAffordable(c, s, product, place, quantity);
      PlanIsAlmostScaled(c, s, product, place, quantity);
      PlanDrawsInOrder(lots, quantity);
      DrawSucceeds(c, s, product, place, plan, kind, |plan|);
      assert plan[..|plan|] == plan;
      DrawWrites(c, s, product, place, plan, kind);
      PlanIsInOrder(lots, quantity);
      KeptDraws(plan, quantity);
      var r := Consume(c, s, product, place, quantity, kind);
      forall a | a in plan ensures OnHand(r.value.rows, Key(product, place, Some(a.lot))) >= 0.0 {
        DrawnLotIsCovered(c, s, product, place, plan, a);
      }
    }
  }

  lemma {:induction false} DrawnInPart(c: Catalog, s: Stock, product: int, place: Place, plan: seq<Allocation>, a: Allocation,
                                       n: nat)
    requires Affordable(c, s, product, place, plan) && a in plan && a.quantity > 0.0 && n <= |plan|
    ensures Taken(plan[..n], a.lot) <= OnHand(s.rows, Key(product, place, Some(a.lot)))
  {
    hide Total, Taken, CheckContext;
    var i :| 0 <= i < |plan| && plan[i] == a;
    TakenGrows(plan, i, a.lot);
    TakenIsNonNegative(c, s, product, place, plan, i, a.lot);
    assert Taken(plan[..i + 1], a.lot) <= Usable(c, s.rows, product, place, a.lot);
    assert Taken(plan[..n], a.lot) <= Usable(c, s.rows, product, place, a.lot);
  }

  /** Rounding the last draw does not overdraw its lot either. */
  lemma DrawnLotIsCovered(c: Catalog, s: Stock, product: int, place: Place, plan: seq<Allocation>, a: Allocation)
    requires Scaled(s.rows) && AlmostScaled(plan)
    requires Affordable(c, s, product, place, plan) && a in plan && a.quantity > 0.0
    ensures Taken(Kept(plan), a.lot) <= OnHand(s.rows, Key(product, place, Some(a.lot)))
  {
    hide Total, Taken, CheckContext, Stored, AtScale, Affordable, Kept;
    var n := |plan| - 1;
    var last, key := plan[n], Key(product, place, Some(a.lot));
    assert plan[..n + 1] == plan;
    DrawnInPart(c, s, product, place, plan, a, n);
    DrawnInPart(c, s, product, place, plan, a, n + 1);
    PartsAreKept(plan, n);
    TakenGrows(plan, n, a.lot);
    TakenOneMore(plan[..n], Allocation(last.lot, Stored(last.quantity)), a.lot);
    if last.lot == a.lot {
      TotalIsScaled(s.rows, Only(key));
      TakenIsScaled(plan[..n], a.lot);
      ScaleIsClosed(OnHand(s.rows, key), Taken(plan[..n], a.lot));
      StoredIsAvailable(OnHand(s.rows, key) - Taken(plan[..n], a.lot), -last.quantity);
      StoredIsOdd(last.quantity);
    }
  }

  // The service.

  method PlanLots(room: Stockroom, product: int, place: Place, quantity: Decimal) returns (r: Outcome<seq<Allocation>>)
    ensures r == PlanFefo(room.catalog, room.rows, product, place, quantity)
  {
    hide Drawn, Plan, LotBalances;
    var refused := CheckContext(room.catalog, Key(product, place, None), false);
    if refused.Some? { return Err(refused.value); }
    if !room.catalog.lotTracked[product] { return Err(NotLotTracked); }
    var balances := LotBalances(room.catalog, room.rows, product, place);
    var remaining := quantity;
    var allocations: seq<Allocation> := [];
    var i := 0;
    PlanStart(balances, quantity);
    while i < |balances| && remaining > 0.0
      invariant i <= |balances|
      invariant allocations == Plan(balances[..i], quantity)
      invariant remaining == quantity - Drawn(allocations)
    {
      var take := Min(balances[i].quantity, remaining);
      PlanStep(balances, quantity, i);
      allocations := allocations + [Allocation(balances[i].lot, take)];
      remaining := remaining - take;
      i := i + 1;
    }
    PlanIsDone(balances, quantity, i);
    return if remaining > 0.0 then Err(Insufficient) else Ok(allocations);
  }

  lemma PlanStart(lots: seq<LotBalance>, quantity: Decimal)
    ensures Plan(lots[..0], quantity) == [] && Drawn([]) == 0.0
  {}

  lemma PlanStep(lots: seq<LotBalance>, quantity: Decimal, i: nat)
    requires i < |lots| && quantity - Drawn(Plan(lots[..i], quantity)) > 0.0
    ensures var before := Plan(lots[..i], quantity);
            var take := Min(lots[i].quantity, quantity - Drawn(before));
            && Plan(lots[..i + 1], quantity) == before + [Allocation(lots[i].lot, take)]
            && Drawn(Plan(lots[..i + 1], quantity)) == Drawn(before) + take
  {
    var before := Plan(lots[..i], quantity);
    assert lots[..i + 1][..i] == lots[..i];
    SumOneMore(before, Allocation(lots[i].lot, Min(lots[i].quantity, quantity - Drawn(before))), (a: Allocation) => a.quantity);
  }

  /** Breaking off early changes nothing. */
  lemma {:induction false} PlanIsDone(lots: seq<LotBalance>, quantity: Decimal, k: nat)
    requires k <= |lots| && (k == |lots| || quantity - Drawn(Plan(lots[..k], quantity)) <= 0.0)
    ensures Plan(lots, quantity) == Plan(lots[..k], quantity)
  {
    if k < |lots| {
      var last := |lots| - 1;
      assert lots[..last][..k] == lots[..k];
      PlanIsDone(lots[..last], quantity, k);
    } else {
      assert lots[..k] == lots;
    }
  }

  /** Plan and draw in one transaction: a refusal undoes what was drawn. */
  method ExecuteConsumption(room: Stockroom, product: int, place: Place, quantity: Decimal, kind: Kind)
    returns (error: Option<Error>)
    requires room.Valid()
    modifies room`rows, room`ledger
    ensures room.Valid()
    ensures match Consume(room.catalog, old(room.State()), product, place, quantity, kind)
            case Err(e) => error == Some(e) && room.State() == old(room.State())
            case Ok(after) => error == None && room.State() == after
  {
    hide Agrees, Record, PlanFefo;
    ghost var before := room.State();
    var rows, ledger := room.rows, room.ledger;
    var planned := PlanLots(room, product, place, quantity);
    if planned.Err? { return Some(planned.error); }
    var plan := planned.value;
    for i := 0 to |plan|
      invariant room.Valid()
      invariant Draw(room.catalog, before, product, place, plan[..i], kind) == Ok(room.State())
    {
      assert plan[..i + 1][..i] == plan[..i];
      error := room.RecordMovement(Movement(Key(product, place, Some(plan[i].lot)), -plan[i].quantity, kind), false);
      if error.Some? {
        DrawFails(room.catalog, before, product, place, plan, kind, i + 1);
        room.rows, room.ledger := rows, ledger;
        assert room.State() == before;
        return;
      }
    }
    assert plan[..|plan|] == plan;
    return None;
  }

  lemma {:induction false} DrawFails(c: Catalog, s: Stock, product: int, place: Place, plan: seq<Allocation>, kind: Kind, n: nat)
    requires n <= |plan| && Draw(c, s, product, place, plan[..n], kind).Err?
    ensures Draw(c, s, product, place, plan, kind) == Draw(c, s, product, place, plan[..n], kind)
  {
    if n < |plan| {
      assert plan[..|plan| - 1][..n] == plan[..n];
      DrawFails(c, s, product, place, plan[..|plan| - 1], kind, n);
    } else {
      assert plan[..n] == plan;
    }
  }
}
