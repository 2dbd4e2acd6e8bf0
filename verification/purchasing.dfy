/** Purchase orders: drafted, placed, and received delivery by delivery. */
module Purchasing {
  import opened Money
  import opened Sums
  import opened Sorting

  datatype Status = Draft | Ordered | PartiallyReceived | Received | Cancelled

  /** What an order line is for; quantities in packages, converted at the snapshotted factor. */
  datatype Terms = Terms(product: int, package: int, factor: Decimal, packages: Decimal, unitCost: Decimal,
                         taxRate: Decimal, discountRate: Decimal)

  datatype OrderLine = OrderLine(id: int, terms: Terms, ordered: Decimal, received: Decimal)

  datatype Delivery = Delivery(line: int, packages: Decimal, lotNumber: Option<int>)

  datatype Order = Order(status: Status, lines: seq<OrderLine>, receipts: seq<seq<Delivery>>)

  datatype Error = Conflict | Validation | NotFound

  datatype Outcome<+T> = Ok(value: T) | Err(error: Error)

  ghost predicate Sensible(t: Terms) { t.factor > 0.0 && t.packages > 0.0 }

  function NewLine(id: int, t: Terms): OrderLine { OrderLine(id, t, t.packages * t.factor, 0.0) }

  predicate HasLine(lines: seq<OrderLine>, id: int) { exists i :: 0 <= i < |lines| && lines[i].id == id }

  function Find(lines: seq<OrderLine>, id: int): (i: nat)
    ensures i <= |lines|
    ensures i < |lines| ==> lines[i].id == id
    ensures i < |lines| <==> HasLine(lines, id)
  {
    if lines == [] then 0
    else
      var last := |lines| - 1;
      var i := Find(lines[..last], id);
      if i < last then
        assert lines[..last][i].id == id;
        i
      else if lines[last].id == id then last
      else |lines|
  }

  function BaseQuantity(line: OrderLine, d: Delivery): Decimal { d.packages * line.terms.factor }

  /** What exceeds the whole order is a mistake in the request; what exceeds only the rest may be a lost race. */
  function ExcessError(line: OrderLine, d: Delivery): Error {
    if BaseQuantity(line, d) <= line.ordered then Conflict else Validation
  }

  /** The first pass looks at each delivery against the order as it stands. */
  function Refusal(lines: seq<OrderLine>, tracksLots: int -> bool, d: Delivery): Option<Error> {
    var i := Find(lines, d.line);
    if i == |lines| then Some(Validation)
    else if BaseQuantity(lines[i], d) > lines[i].ordered - lines[i].received then Some(ExcessError(lines[i], d))
    else if tracksLots(lines[i].terms.product) != d.lotNumber.Some? then Some(Validation)
    else None
  }

  /** What a refusal says: a delivery that would fit the order but no longer fits what is left of it is a conflict; an
      unknown line, more than was ever ordered, or a lot number missing or out of place is a mistake in the request. */
  lemma RefusalMeaning(lines: seq<OrderLine>, tracksLots: int -> bool, d: Delivery)
    ensures HasLine(lines, d.line) ==>
              var line := lines[Find(lines, d.line)];
              var quantity := d.packages * line.terms.factor;
              && (Refusal(lines, tracksLots, d) == Some(Conflict) <==> line.ordered - line.received < quantity <= line.ordered)
              && (Refusal(lines, tracksLots, d) == None <==>
                    quantity <= line.ordered - line.received && (d.lotNumber.Some? <==> tracksLots(line.terms.product)))
    ensures !HasLine(lines, d.line) ==> Refusal(lines, tracksLots, d) == Some(Validation)
    ensures Refusal(lines, tracksLots, d) != Some(NotFound)
  {
    hide Find;
    var i := Find(lines, d.line);
    if i < |lines| {
      assert BaseQuantity(lines[i], d) == d.packages * lines[i].terms.factor;
      hide BaseQuantity;
    }
  }

  function FirstRefusal(lines: seq<OrderLine>, tracksLots: int -> bool, ds: seq<Delivery>): Option<Error> {
    if ds == [] then None
    else
      var before := FirstRefusal(lines, tracksLots, ds[..|ds| - 1]);
      if before.Some? then before else Refusal(lines, tracksLots, ds[|ds| - 1])
  }

  /** The second pass looks again, at what the deliveries before it have left. */
  function Accept(lines: seq<OrderLine>, d: Delivery): Outcome<seq<OrderLine>> {
    var i := Find(lines, d.line);
    if i == |lines| then Err(Validation)
    else
      var quantity := BaseQuantity(lines[i], d);
      if quantity > lines[i].ordered - lines[i].received then Err(ExcessError(lines[i], d))
      else Ok(lines[i := lines[i].(received := lines[i].received + quantity)])
  }

  function AcceptAll(lines: seq<OrderLine>, ds: seq<Delivery>): Outcome<seq<OrderLine>> {
    if ds == [] then Ok(lines)
    else match AcceptAll(lines, ds[..|ds| - 1])
      case Err(e) => Err(e)
      case Ok(after) => Accept(after, ds[|ds| - 1])
  }

  /** By product, then lot number, none before any, then line. */
  predicate ExecutesFirst(lines: seq<OrderLine>, a: Delivery, b: Delivery) {
    var p, q := ProductOf(lines, a.line), ProductOf(lines, b.line);
    if p != q then p < q
    else if a.lotNumber.Some? != b.lotNumber.Some? then b.lotNumber.Some?
    else if a.lotNumber.Some? && a.lotNumber.value != b.lotNumber.value then a.lotNumber.value < b.lotNumber.value
    else a.line <= b.line
  }

  function InExecutionOrder(lines: seq<OrderLine>, ds: seq<Delivery>): (r: seq<Delivery>)
    ensures multiset(r) == multiset(ds)
  {
    Sort(ds, (a, b) => ExecutesFirst(lines, a, b))
  }

  /** Products ascend and, within a product, lot numbers, none before any, and then lines: the order in which lots and
      balances are locked, however the request lists its deliveries. */
  lemma DeliveriesAscend(lines: seq<OrderLine>, ds: seq<Delivery>)
    ensures var s := InExecutionOrder(lines, ds);
            forall i, j :: 0 <= i < j < |s| ==>
              var p, q, x, y := ProductOf(lines, s[i].line), ProductOf(lines, s[j].line), s[i].lotNumber, s[j].lotNumber;
              && p <= q
              && (p == q && x.Some? ==> y.Some? && x.value <= y.value)
              && (p == q && x == y ==> s[i].line <= s[j].line)
  {
    hide ProductOf;
    SortIsSorted(ds, (a, b) => ExecutesFirst(lines, a, b));
  }

  function ProductOf(lines: seq<OrderLine>, id: int): int {
    var i := Find(lines, id);
    if i == |lines| then -1 else lines[i].terms.product
  }

  predicate Complete(lines: seq<OrderLine>) {
    forall i :: 0 <= i < |lines| ==> lines[i].received >= lines[i].ordered
  }

  function Receive(o: Order, placeExists: bool, tracksLots: int -> bool, deliveries: seq<Delivery>): Outcome<Order> {
    if o.status != Ordered && o.status != PartiallyReceived then Err(Conflict)
    else if !placeExists then Err(Validation)
    else
      var ds := InExecutionOrder(o.lines, deliveries);
      var refused := FirstRefusal(o.lines, tracksLots, ds);
      if refused.Some? then Err(refused.value)
      else match AcceptAll(o.lines, ds)
        case Err(e) => Err(e)
        case Ok(lines) => Ok(Order(if Complete(lines) then Received else PartiallyReceived, lines, o.receipts + [deliveries]))
  }

  datatype Op =
    | AddLine(id: int, terms: Terms)
    | UpdateLine(id: int, terms: Terms)
    | RemoveLine(id: int)
    | Place
    | Cancel
    | Deliver(placeExists: bool, tracksLots: int -> bool, deliveries: seq<Delivery>)

  /** What the request schema and fresh ids guarantee. */
  ghost predicate Admissible(o: Order, op: Op) {
    match op
    case AddLine(id, t) => Sensible(t) && !HasLine(o.lines, id)
    case UpdateLine(_, t) => Sensible(t)
    case Deliver(_, _, ds) => ds != [] && forall i :: 0 <= i < |ds| ==> ds[i].packages > 0.0
    case _ => true
  }

  function Effect(o: Order, op: Op): Outcome<Order> {
    match op
    case AddLine(id, t) =>
      if o.status != Draft then Err(Conflict) else Ok(o.(lines := o.lines + [NewLine(id, t)]))
    case UpdateLine(id, t) =>
      var i := Find(o.lines, id);
      if o.status != Draft then Err(Conflict)
      else if i == |o.lines| then Err(NotFound)
      else Ok(o.(lines := o.lines[i := NewLine(id, t).(received := o.lines[i].received)]))
    case RemoveLine(id) =>
      var i := Find(o.lines, id);
      if o.status != Draft then Err(Conflict)
      else if i == |o.lines| then Err(NotFound)
      else Ok(o.(lines := o.lines[..i] + o.lines[i + 1..]))
    case Place =>
      if o.status != Draft then Err(Conflict)
      else if o.lines == [] then Err(Validation)
      else Ok(o.(status := Ordered))
    case Cancel =>
      if o.status != Draft && o.status != Ordered then Err(Conflict) else Ok(o.(status := Cancelled))
    case Deliver(placeExists, tracksLots, ds) => Receive(o, placeExists, tracksLots, ds)
  }

  function Apply(o: Order, op: Op): Order {
    var r := Effect(o, op);
    if r.Ok? then r.value else o
  }

  function Run(o: Order, ops: seq<Op>): Order {
    if ops == [] then o else Apply(Run(o, ops[..|ops| - 1]), ops[|ops| - 1])
  }

  lemma {:induction false} RefusedEarly(lines: seq<OrderLine>, tracksLots: int -> bool, ds: seq<Delivery>, n: nat)
    requires n <= |ds| && FirstRefusal(lines, tracksLots, ds[..n]).Some?
    ensures FirstRefusal(lines, tracksLots, ds) == FirstRefusal(lines, tracksLots, ds[..n])
  {
    if n < |ds| {
      assert ds[..|ds| - 1][..n] == ds[..n];
      RefusedEarly(lines, tracksLots, ds[..|ds| - 1], n);
    } else {
      assert ds[..n] == ds;
    }
  }

  lemma {:induction false} FailedEarly(lines: seq<OrderLine>, ds: seq<Delivery>, n: nat)
    requires n <= |ds| && AcceptAll(lines, ds[..n]).Err?
    ensures AcceptAll(lines, ds) == AcceptAll(lines, ds[..n])
  {
    if n < |ds| {
      assert ds[..|ds| - 1][..n] == ds[..n];
      FailedEarly(lines, ds[..|ds| - 1], n);
    } else {
      assert ds[..n] == ds;
    }
  }

  // What a receipt comes to.

  function Brings(id: int, factor: Decimal): Delivery -> Decimal {
    (d: Delivery) => if d.line == id then d.packages * factor else 0.0
  }

  function Brought(line: OrderLine, ds: seq<Delivery>): Decimal { Sum(ds, Brings(line.id, line.terms.factor)) }

  function BroughtInAll(line: OrderLine, receipts: seq<seq<Delivery>>): Decimal {
    if receipts == [] then 0.0
    else BroughtInAll(line, receipts[..|receipts| - 1]) + Brought(line, receipts[|receipts| - 1])
  }

  /** The lines once all the deliveries are in. */
  ghost function WithAll(lines: seq<OrderLine>, ds: seq<Delivery>): seq<OrderLine> {
    seq(|lines|, i requires 0 <= i < |lines| => lines[i].(received := lines[i].received + Brought(lines[i], ds)))
  }

  ghost predicate Known(lines: seq<OrderLine>, ds: seq<Delivery>) {
    forall i :: 0 <= i < |ds| ==> HasLine(lines, ds[i].line)
  }

  ghost predicate Fits(lines: seq<OrderLine>, ds: seq<Delivery>) {
    forall i :: 0 <= i < |lines| ==> lines[i].received + Brought(lines[i], ds) <= lines[i].ordered
  }

  ghost predicate Positive(ds: seq<Delivery>) {
    forall i :: 0 <= i < |ds| ==> ds[i].packages > 0.0
  }

  /** Ids are unique, conversions are sensible, and no line has more than was ordered. */
  ghost predicate LinesOk(lines: seq<OrderLine>) {
    && (forall i, j :: 0 <= i < j < |lines| ==> lines[i].id != lines[j].id)
    && (forall i :: 0 <= i < |lines| ==>
          && Sensible(lines[i].terms) && lines[i].ordered == lines[i].terms.packages * lines[i].terms.factor
          && 0.0 <= lines[i].received <= lines[i].ordered)
  }

  lemma BroughtStep(line: OrderLine, ds: seq<Delivery>)
    requires ds != []
    ensures var d := ds[|ds| - 1];
            Brought(line, ds) == Brought(line, ds[..|ds| - 1]) + (if d.line == line.id then BaseQuantity(line, d) else 0.0)
  {}

  lemma BaseQuantityIsPositive(line: OrderLine, d: Delivery)
    requires Sensible(line.terms) && d.packages > 0.0
    ensures BaseQuantity(line, d) > 0.0
  {}

  lemma WithNothing(lines: seq<OrderLine>)
    ensures WithAll(lines, []) == lines
  {
    forall i | 0 <= i < |lines| ensures WithAll(lines, [])[i] == lines[i] {
      assert Brought(lines[i], []) == 0.0;
    }
  }

  lemma {:induction false} BroughtIsPositive(line: OrderLine, ds: seq<Delivery>)
    requires Sensible(line.terms) && Positive(ds)
    ensures Brought(line, ds) >= 0.0
  {
    if ds != [] {
      hide Brought, Sensible;
      BroughtIsPositive(line, ds[..|ds| - 1]);
      BroughtStep(line, ds);
      BaseQuantityIsPositive(line, ds[|ds| - 1]);
    }
  }

  lemma AcceptLast(lines: seq<OrderLine>, ds: seq<Delivery>)
    requires LinesOk(lines) && ds != [] && Positive(ds)
    ensures var front, d := ds[..|ds| - 1], ds[|ds| - 1];
            var r := Accept(WithAll(lines, front), d);
            && (Fits(lines, ds) && Known(lines, ds) ==> Fits(lines, front) && Known(lines, front))
            && (Fits(lines, front) && Known(lines, front) ==>
                  && (r.Ok? <==> Fits(lines, ds) && Known(lines, ds))
                  && (r.Ok? ==> r.value == WithAll(lines, ds)))
  {
    hide Brought, Find, BaseQuantity, Sensible;
    var front, d := ds[..|ds| - 1], ds[|ds| - 1];
    var now := WithAll(lines, front);
    forall i | 0 <= i < |lines|
      ensures Brought(lines[i], ds)
           == Brought(lines[i], front) + (if d.line == lines[i].id then BaseQuantity(lines[i], d) else 0.0)
      ensures BaseQuantity(lines[i], d) > 0.0 && BaseQuantity(now[i], d) == BaseQuantity(lines[i], d)
    {
      BroughtStep(lines[i], ds);
      BaseQuantityIsPositive(lines[i], d);
      assert BaseQuantity(now[i], d) == BaseQuantity(lines[i], d) by { SameBase(now[i], lines[i], d); }
    }
    assert HasLine(now, d.line) <==> HasLine(lines, d.line) by {
      forall i | 0 <= i < |lines| ensures now[i].id == lines[i].id {}
    }
    var k := Find(now, d.line);
    if k < |lines| {
      forall i | 0 <= i < |lines| && i != k ensures lines[i].id != d.line { assert now[k].id == lines[k].id; }
      assert Known(lines, front) ==> Known(lines, ds) by { assert HasLine(lines, d.line); }
    } else {
      assert !HasLine(lines, d.line);
    }
  }

  lemma SameBase(a: OrderLine, b: OrderLine, d: Delivery)
    requires a.terms == b.terms
    ensures BaseQuantity(a, d) == BaseQuantity(b, d)
  {}

  /** The cumulative pass accepts a delivery exactly when every line is on the order and, line by line, all that is
      delivered to it fits in what is left, however it is split and in whatever order; it then books all of it. */
  lemma {:induction false} AcceptAllMeaning(lines: seq<OrderLine>, ds: seq<Delivery>)
    requires LinesOk(lines) && Positive(ds)
    ensures AcceptAll(lines, ds).Ok? <==> Known(lines, ds) && Fits(lines, ds)
    ensures AcceptAll(lines, ds).Ok? ==> AcceptAll(lines, ds).value == WithAll(lines, ds)
  {
    hide Accept, Brought, WithAll;
    if ds == [] {
      NothingFits(lines);
      WithNothing(lines);
    } else {
      hide Fits, Known, LinesOk;
      AcceptAllMeaning(lines, ds[..|ds| - 1]);
      AcceptLast(lines, ds);
    }
  }

  lemma NothingFits(lines: seq<OrderLine>)
    requires LinesOk(lines)
    ensures Known(lines, []) && Fits(lines, [])
  {
    forall i | 0 <= i < |lines| ensures Brought(lines[i], []) == 0.0 {}
  }

  lemma {:induction false} PartOfBrought(line: OrderLine, ds: seq<Delivery>, k: nat)
    requires Sensible(line.terms) && Positive(ds) && k < |ds| && ds[k].line == line.id
    ensures BaseQuantity(line, ds[k]) <= Brought(line, ds)
  {
    hide Brought, Sensible, BaseQuantity;
    var front := ds[..|ds| - 1];
    BroughtStep(line, ds);
    BroughtIsPositive(line, front);
    if k < |front| {
      BaseQuantityIsPositive(line, ds[|ds| - 1]);
      PartOfBrought(line, front, k);
    }
  }

  /** Lot numbers are given exactly where the product tracks lots. */
  ghost predicate LotsGiven(lines: seq<OrderLine>, tracksLots: int -> bool, ds: seq<Delivery>) {
    forall i :: 0 <= i < |ds| && HasLine(lines, ds[i].line) ==>
      tracksLots(lines[Find(lines, ds[i].line)].terms.product) == ds[i].lotNumber.Some?
  }

  lemma {:induction false} FirstPassMeaning(lines: seq<OrderLine>, tracksLots: int -> bool, ds: seq<Delivery>)
    ensures FirstRefusal(lines, tracksLots, ds).None?
       <==> forall i :: 0 <= i < |ds| ==> Refusal(lines, tracksLots, ds[i]).None?
  {
    hide Refusal;
    if ds != [] {
      var front := ds[..|ds| - 1];
      FirstPassMeaning(lines, tracksLots, front);
      if forall i :: 0 <= i < |front| ==> Refusal(lines, tracksLots, front[i]).None? {
        forall i | 0 <= i < |ds| && Refusal(lines, tracksLots, ds[|ds| - 1]).None?
          ensures Refusal(lines, tracksLots, ds[i]).None?
        {
          assert i < |front| ==> front[i] == ds[i];
        }
      } else {
        var i :| 0 <= i < |front| && Refusal(lines, tracksLots, front[i]).Some?;
        assert ds[i] == front[i];
      }
    }
  }

  /** The first pass asks for less than the second, and for the lot numbers. */
  lemma {:induction false} FirstPassIsWeaker(lines: seq<OrderLine>, tracksLots: int -> bool, ds: seq<Delivery>)
    requires LinesOk(lines) && Positive(ds) && Known(lines, ds) && Fits(lines, ds)
    ensures FirstRefusal(lines, tracksLots, ds).None? <==> LotsGiven(lines, tracksLots, ds)
  {
    hide Brought, BaseQuantity, Sensible;
    FirstPassMeaning(lines, tracksLots, ds);
    forall i | 0 <= i < |ds|
      ensures Refusal(lines, tracksLots, ds[i]).None?
         <==> tracksLots(lines[Find(lines, ds[i].line)].terms.product) == ds[i].lotNumber.Some?
    {
      PartOfBrought(lines[Find(lines, ds[i].line)], ds, i);
    }
  }

  lemma {:induction false} FirstPassKnows(lines: seq<OrderLine>, tracksLots: int -> bool, ds: seq<Delivery>)
    requires FirstRefusal(lines, tracksLots, ds).None?
    ensures Known(lines, ds) && LotsGiven(lines, tracksLots, ds)
  {
    FirstPassMeaning(lines, tracksLots, ds);
    forall i | 0 <= i < |ds|
      ensures HasLine(lines, ds[i].line)
           && tracksLots(lines[Find(lines, ds[i].line)].terms.product) == ds[i].lotNumber.Some?
    {
      assert Refusal(lines, tracksLots, ds[i]).None?;
    }
  }

  lemma {:induction false} OrderOfDeliveries(lines: seq<OrderLine>, tracksLots: int -> bool, a: seq<Delivery>, b: seq<Delivery>)
    requires multiset(a) == multiset(b)
    ensures Positive(a) ==> Positive(b)
    ensures Known(lines, a) ==> Known(lines, b)
    ensures LotsGiven(lines, tracksLots, a) ==> LotsGiven(lines, tracksLots, b)
    ensures forall line :: Brought(line, a) == Brought(line, b)
  {
    forall k | 0 <= k < |b| ensures exists j :: 0 <= j < |a| && a[j] == b[k] {
      assert b[k] in multiset(b);
      assert b[k] in a;
    }
    forall line ensures Brought(line, a) == Brought(line, b) {
      SumIsOrderFree(a, b, Brings(line.id, line.terms.factor));
    }
  }

  lemma WhenComplete(lines: seq<OrderLine>, ds: seq<Delivery>)
    requires Fits(lines, ds)
    ensures Complete(WithAll(lines, ds)) <==>
              forall i :: 0 <= i < |lines| ==> lines[i].received + Brought(lines[i], ds) == lines[i].ordered
  {
    hide Brought;
    var after := WithAll(lines, ds);
    assert forall i :: 0 <= i < |lines| ==>
             after[i].received == lines[i].received + Brought(lines[i], ds) <= lines[i].ordered == after[i].ordered;
  }

  /** A receipt is accepted exactly when the order is receiving, the place exists, every delivery names a line of the
      order with the lot number it needs, and all that it brings fits; it then books exactly what it brings. */
  lemma {:induction false} ReceiveMeaning(o: Order, placeExists: bool, tracksLots: int -> bool, ds: seq<Delivery>)
    requires LinesOk(o.lines) && Positive(ds)
    ensures var r := Receive(o, placeExists, tracksLots, ds);
            && (r.Ok? <==> (o.status == Ordered || o.status == PartiallyReceived) && placeExists
                           && Known(o.lines, ds) && LotsGiven(o.lines, tracksLots, ds) && Fits(o.lines, ds))
            && (r.Ok? ==>
                  && r.value.lines == WithAll(o.lines, ds) && r.value.receipts == o.receipts + [ds]
                  && (r.value.status == Received || r.value.status == PartiallyReceived)
                  && (r.value.status == Received <==>
                        forall i :: 0 <= i < |o.lines| ==> o.lines[i].received + Brought(o.lines[i], ds) == o.lines[i].ordered))
  {
    hide Brought, InExecutionOrder, AcceptAll, FirstRefusal, LinesOk, LotsGiven, Known;
    var sorted := InExecutionOrder(o.lines, ds);
    OrderOfDeliveries(o.lines, tracksLots, ds, sorted);
    OrderOfDeliveries(o.lines, tracksLots, sorted, ds);
    AcceptAllMeaning(o.lines, sorted);
    assert WithAll(o.lines, sorted) == WithAll(o.lines, ds);
    if FirstRefusal(o.lines, tracksLots, sorted).None? {
      FirstPassKnows(o.lines, tracksLots, sorted);
    }
    if Fits(o.lines, ds) { WhenComplete(o.lines, ds); }
    if Known(o.lines, sorted) && Fits(o.lines, sorted) {
      FirstPassIsWeaker(o.lines, tracksLots, sorted);
    }
  }

  /** The first pass alone would not do: two deliveries to one line can each fit and not fit together. */
  lemma FirstPassIsNotEnough() returns (lines: seq<OrderLine>, ds: seq<Delivery>)
    ensures LinesOk(lines) && Positive(ds)
    ensures FirstRefusal(lines, (p: int) => false, ds).None? && AcceptAll(lines, ds) == Err(Conflict)
  {
    lines := [OrderLine(1, Terms(1, 1, 1.0, 10.0, 0.0, 0.0, 0.0), 10.0, 0.0)];
    ds := [Delivery(1, 6.0, None), Delivery(1, 6.0, None)];
    assert lines[0].id == 1;
    assert Refusal(lines, (p: int) => false, ds[0]).None?;
    FirstPassMeaning(lines, (p: int) => false, ds);
    assert ds[..1] == [ds[0]] && ds[..1][..0] == [];
    assert AcceptAll(lines, ds[..1]) == Accept(lines, ds[0]);
    var half := Accept(lines, ds[0]).value;
    assert half[0].id == 1 && half[0].received == 6.0;
    assert Find(half, 1) == 0;
  }

  // What every run keeps.

  ghost predicate Accounted(o: Order) {
    forall i :: 0 <= i < |o.lines| ==> o.lines[i].received == BroughtInAll(o.lines[i], o.receipts)
  }

  /** Nothing is received before an order is placed or after it is cancelled, a receiving order is `Received` exactly
      when all its lines are complete, and each line has received what its receipts say. */
  ghost predicate Sound(o: Order) {
    && LinesOk(o.lines) && Accounted(o)
    && (o.status == Draft || o.status == Ordered || o.status == Cancelled ==> o.receipts == [])
    && (o.status == PartiallyReceived || o.status == Received ==> o.receipts != [])
    && (o.status == Ordered || o.status == PartiallyReceived || o.status == Received ==>
          && o.lines != []
          && (o.status == Received <==> forall i :: 0 <= i < |o.lines| ==> o.lines[i].received == o.lines[i].ordered))
  }

  lemma {:induction false} SameLine(a: OrderLine, b: OrderLine, receipts: seq<seq<Delivery>>)
    requires a.id == b.id && a.terms.factor == b.terms.factor
    ensures BroughtInAll(a, receipts) == BroughtInAll(b, receipts)
  {
    if receipts != [] { SameLine(a, b, receipts[..|receipts| - 1]); }
  }

  lemma NothingReceived(o: Order)
    requires Sound(o) && o.receipts == []
    ensures forall i :: 0 <= i < |o.lines| ==> o.lines[i].received == 0.0
  {}

  lemma PackagesArePositive(t: Terms)
    requires Sensible(t)
    ensures t.packages * t.factor > 0.0
  {}

  lemma DeliverKeeps(o: Order, op: Op)
    requires Sound(o) && op.Deliver? && Admissible(o, op)
    ensures Sound(Apply(o, op))
  {
    hide Receive, Brought, Sensible, Known, LotsGiven;
    var ds := op.deliveries;
    ReceiveMeaning(o, op.placeExists, op.tracksLots, ds);
    var r := Receive(o, op.placeExists, op.tracksLots, ds);
    if r.Ok? {
      var after := r.value;
      assert after.receipts[..|o.receipts|] == o.receipts;
      assert forall i :: 0 <= i < |o.lines| ==>
               after.lines[i].ordered == o.lines[i].ordered
               && after.lines[i].received == o.lines[i].received + Brought(o.lines[i], ds);
      forall i | 0 <= i < |o.lines|
        ensures after.lines[i].received == BroughtInAll(after.lines[i], after.receipts)
        ensures 0.0 <= after.lines[i].received <= after.lines[i].ordered
      {
        SameLine(o.lines[i], after.lines[i], o.receipts);
        SameBrought(o.lines[i], after.lines[i], ds);
        BroughtIsPositive(o.lines[i], ds);
      }
    }
  }

  lemma SameBrought(a: OrderLine, b: OrderLine, ds: seq<Delivery>)
    requires a.id == b.id && a.terms.factor == b.terms.factor
    ensures Brought(a, ds) == Brought(b, ds)
  {}

  lemma DraftKeeps(o: Order, lines: seq<OrderLine>)
    requires o.receipts == [] && o.status == Draft && LinesOk(lines)
    requires forall i :: 0 <= i < |lines| ==> lines[i].received == 0.0
    ensures Sound(o.(lines := lines))
  {}

  lemma NewLineIsOk(lines: seq<OrderLine>, id: int, t: Terms)
    requires LinesOk(lines) && Sensible(t) && !HasLine(lines, id)
    ensures LinesOk(lines + [NewLine(id, t)])
  {
    PackagesArePositive(t);
  }

  lemma EditedLineIsOk(lines: seq<OrderLine>, i: nat, t: Terms)
    requires LinesOk(lines) && Sensible(t) && i < |lines| && lines[i].received == 0.0
    ensures LinesOk(lines[i := NewLine(lines[i].id, t).(received := lines[i].received)])
  {
    hide Sensible;
    PackagesArePositive(t);
  }

  lemma RemovedLineIsOk(lines: seq<OrderLine>, i: nat)
    requires LinesOk(lines) && i < |lines|
    ensures LinesOk(lines[..i] + lines[i + 1..])
  {
    hide Sensible;
  }

  lemma {:induction false} EditKeeps(o: Order, op: Op)
    requires Sound(o) && Admissible(o, op)
    requires op.AddLine? || op.UpdateLine? || op.RemoveLine?
    ensures Sound(Apply(o, op))
  {
    if Effect(o, op).Ok? {
      NothingReceived(o);
      hide LinesOk, Accounted, Sensible;
      match op {
        case AddLine(id, t) => NewLineIsOk(o.lines, id, t);
        case UpdateLine(id, t) => EditedLineIsOk(o.lines, Find(o.lines, id), t);
        case RemoveLine(id) => RemovedLineIsOk(o.lines, Find(o.lines, id));
      }
      DraftKeeps(o, Apply(o, op).lines);
    }
  }

  lemma PlaceKeeps(o: Order, op: Op)
    requires Sound(o) && (op.Place? || op.Cancel?)
    ensures Sound(Apply(o, op))
  {
    hide BroughtInAll, Sensible;
    var after := Apply(o, op);
    if op.Place? && after != o {
      NothingReceived(o);
      PackagesArePositive(o.lines[0].terms);
      assert after.lines[0].received < after.lines[0].ordered;
    }
  }

  ghost predicate AdmissibleRun(o: Order, ops: seq<Op>) {
    ops != [] ==>
      var front := ops[..|ops| - 1];
      AdmissibleRun(o, front) && Admissible(Run(o, front), ops[|ops| - 1])
  }

  /** Every run of a purchase order from an empty draft is sound. */
  lemma {:induction false} EveryRunIsSound(ops: seq<Op>)
    requires AdmissibleRun(Order(Draft, [], []), ops)
    ensures Sound(Run(Order(Draft, [], []), ops))
  {
    hide Sound, Apply;
    var start := Order(Draft, [], []);
    if ops == [] {
      assert Sound(start) by { EmptyIsSound(); }
    } else {
      var front, op := ops[..|ops| - 1], ops[|ops| - 1];
      EveryRunIsSound(front);
      StepKeeps(Run(start, front), op);
    }
  }

  lemma EmptyIsSound()
    ensures Sound(Order(Draft, [], []))
  {}

  function Rank(s: Status): nat {
    match s
    case Draft => 0
    case Ordered => 1
    case PartiallyReceived => 2
    case Received => 3
    case Cancelled => 3
  }

  /** After drafting, lines keep their terms and only receive more; the status only moves on. */
  ghost predicate MovedOn(before: Order, after: Order) {
    && Rank(before.status) <= Rank(after.status)
    && (Rank(before.status) == 3 ==> after == before)
    && (before.status != Draft ==>
          && after.status != Draft && |after.lines| == |before.lines|
          && before.receipts <= after.receipts
          && forall i :: 0 <= i < |before.lines| ==>
               && after.lines[i].id == before.lines[i].id && after.lines[i].terms == before.lines[i].terms
               && after.lines[i].ordered == before.lines[i].ordered
               && after.lines[i].received >= before.lines[i].received)
  }

  lemma {:induction false} StepMovesOn(o: Order, op: Op)
    requires Sound(o) && Admissible(o, op)
    ensures MovedOn(o, Apply(o, op))
  {
    hide Brought, Sensible, Receive, LotsGiven, Known, Accounted;
    if op.Deliver? {
      ReceiveMeaning(o, op.placeExists, op.tracksLots, op.deliveries);
      forall i | 0 <= i < |o.lines| ensures Brought(o.lines[i], op.deliveries) >= 0.0 {
        BroughtIsPositive(o.lines[i], op.deliveries);
      }
    }
  }

  /** Whatever happens later, a placed order keeps its lines and a finished one does not change at all. */
  lemma {:induction false} LinesFreeze(earlier: seq<Op>, later: seq<Op>)
    requires AdmissibleRun(Order(Draft, [], []), earlier + later)
    ensures var start := Order(Draft, [], []);
            MovedOn(Run(start, earlier), Run(start, earlier + later))
  {
    hide Apply, Sound;
    var start := Order(Draft, [], []);
    if later == [] {
      assert earlier + later == earlier;
    } else {
      var all := earlier + later;
      var front := later[..|later| - 1];
      assert all[..|all| - 1] == earlier + front;
      LinesFreeze(earlier, front);
      EveryRunIsSound(earlier + front);
      StepMovesOn(Run(start, earlier + front), later[|later| - 1]);
    }
  }

  /** Any admissible operation keeps a sound order sound and only moves it on. */
  lemma {:induction false} StepKeeps(o: Order, op: Op)
    requires Sound(o) && Admissible(o, op)
    ensures Sound(Apply(o, op)) && MovedOn(o, Apply(o, op))
  {
    hide Sound, MovedOn, Apply;
    StepMovesOn(o, op);
    if op.Deliver? { DeliverKeeps(o, op); }
    else if op.Place? || op.Cancel? { PlaceKeeps(o, op); }
    else { EditKeeps(o, op); }
  }

  /** An edited draft in its own terms: the line with that id, and no other. */
  lemma EditMeaning(o: Order, id: int, t: Terms)
    requires Sound(o) && o.status == Draft && HasLine(o.lines, id)
    ensures o.receipts == []
    ensures var after := Effect(o, UpdateLine(id, t)).value.lines;
            && |after| == |o.lines|
            && forall i :: 0 <= i < |after| ==>
                 after[i] == if o.lines[i].id == id then OrderLine(id, t, t.packages * t.factor, 0.0) else o.lines[i]
    ensures var after := Effect(o, RemoveLine(id)).value.lines;
            |after| == |o.lines| - 1 && forall l :: l in after <==> l in o.lines && l.id != id
  {
    NothingReceived(o);
    hide Sensible, BroughtInAll;
    var k := Find(o.lines, id);
    assert o.lines == o.lines[..k] + [o.lines[k]] + o.lines[k + 1..];
  }

  // The order as it is edited in place.

  /** Sound at every moment; each method does its operation or, refused, nothing. */
  class PurchaseOrder {
    var status: Status
    var lines: seq<OrderLine>
    var receipts: seq<seq<Delivery>>

    ghost function State(): Order reads this { Order(status, lines, receipts) }

    ghost predicate Valid() reads this { Sound(State()) }

    constructor ()
      ensures Valid() && State() == Order(Draft, [], [])
    {
      status, lines, receipts := Draft, [], [];
    }

    method Add(id: int, terms: Terms) returns (error: Option<Error>)
      requires Valid() && Sensible(terms) && !HasLine(lines, id)
      modifies this
      ensures Valid() && MovedOn(old(State()), State())
      ensures error == (if old(status) == Draft then None else Some(Conflict))
      ensures error.None? ==> status == Draft && receipts == old(receipts)
                              && lines == old(lines) + [OrderLine(id, terms, terms.packages * terms.factor, 0.0)]
      ensures match Effect(old(State()), AddLine(id, terms))
              case Err(e) => error == Some(e) && State() == old(State())
              case Ok(after) => error == None && State() == after
    {
      hide Sound, MovedOn;
      StepKeeps(State(), AddLine(id, terms));
      if status != Draft { return Some(Conflict); }
      lines := lines + [NewLine(id, terms)];
      return None;
    }

    method Update(id: int, terms: Terms) returns (error: Option<Error>)
      requires Valid() && Sensible(terms)
      modifies this
      ensures Valid() && MovedOn(old(State()), State())
      ensures error == (if old(status) != Draft then Some(Conflict) else if HasLine(old(lines), id) then None else Some(NotFound))
      ensures error.None? ==>
                && status == Draft && receipts == old(receipts) && |lines| == |old(lines)|
                && forall i :: 0 <= i < |lines| ==>
                     lines[i] == if old(lines)[i].id == id then OrderLine(id, terms, terms.packages * terms.factor, 0.0)
                                 else old(lines)[i]
      ensures match Effect(old(State()), UpdateLine(id, terms))
              case Err(e) => error == Some(e) && State() == old(State())
              case Ok(after) => error == None && State() == after
    {
      hide Sound, MovedOn;
      StepKeeps(State(), UpdateLine(id, terms));
      if status == Draft && HasLine(lines, id) { EditMeaning(State(), id, terms); }
      if status != Draft { return Some(Conflict); }
      var i := Find(lines, id);
      if i == |lines| { return Some(NotFound); }
      lines := lines[i := NewLine(lines[i].id, terms).(received := lines[i].received)];
      return None;
    }

    method Remove(id: int) returns (error: Option<Error>)
      requires Valid()
      modifies this
      ensures Valid() && MovedOn(old(State()), State())
      ensures error == (if old(status) != Draft then Some(Conflict) else if HasLine(old(lines), id) then None else Some(NotFound))
      ensures error.None? ==> status == Draft && receipts == old(receipts) && |lines| == |old(lines)| - 1
                              && forall l :: l in lines <==> l in old(lines) && l.id != id
      ensures match Effect(old(State()), RemoveLine(id))
              case Err(e) => error == Some(e) && State() == old(State())
              case Ok(after) => error == None && State() == after
    {
      hide Sound, MovedOn;
      StepKeeps(State(), RemoveLine(id));
      if status == Draft && HasLine(lines, id) { EditMeaning(State(), id, lines[Find(lines, id)].terms); }
      if status != Draft { return Some(Conflict); }
      var i := Find(lines, id);
      if i == |lines| { return Some(NotFound); }
      lines := lines[..i] + lines[i + 1..];
      return None;
    }

    method PlaceOrder() returns (error: Option<Error>)
      requires Valid()
      modifies this
      ensures Valid() && MovedOn(old(State()), State())
      ensures error == (if old(status) != Draft then Some(Conflict) else if old(lines) == [] then Some(Validation) else None)
      ensures error.None? ==> status == Ordered && lines == old(lines) && receipts == old(receipts)
      ensures match Effect(old(State()), Place)
              case Err(e) => error == Some(e) && State() == old(State())
              case Ok(after) => error == None && State() == after
    {
      hide Sound, MovedOn;
      StepKeeps(State(), Place);
      if status != Draft { return Some(Conflict); }
      if lines == [] { return Some(Validation); }
      status := Ordered;
      return None;
    }

    method CancelOrder() returns (error: Option<Error>)
      requires Valid()
      modifies this
      ensures Valid() && MovedOn(old(State()), State())
      ensures error == (if old(status) == Draft || old(status) == Ordered then None else Some(Conflict))
      ensures error.None? ==> status == Cancelled && lines == old(lines) && receipts == old(receipts)
      ensures match Effect(old(State()), Cancel)
              case Err(e) => error == Some(e) && State() == old(State())
              case Ok(after) => error == None && State() == after
    {
      hide Sound, MovedOn;
      StepKeeps(State(), Cancel);
      if status != Draft && status != Ordered { return Some(Conflict); }
      status := Cancelled;
      return None;
    }

    /** A receipt commits whole or leaves no trace. */
    method CreateReceipt(placeExists: bool, tracksLots: int -> bool, deliveries: seq<Delivery>)
      returns (error: Option<Error>)
      requires Valid() && deliveries != [] && Positive(deliveries)
      modifies this
      ensures Valid() && MovedOn(old(State()), State())
      ensures match Receive(old(State()), placeExists, tracksLots, deliveries)
              case Err(e) => error == Some(e) && State() == old(State())
              case Ok(after) => error == None && State() == after
    {
      hide Refusal, Accept, InExecutionOrder, Sound, MovedOn;
      StepKeeps(State(), Deliver(placeExists, tracksLots, deliveries));
      if status != Ordered && status != PartiallyReceived { return Some(Conflict); }
      if !placeExists { return Some(Validation); }
      var before := lines;
      var ds := InExecutionOrder(lines, deliveries);
      for i := 0 to |ds|
        invariant FirstRefusal(before, tracksLots, ds[..i]) == None
      {
        assert ds[..i + 1][..i] == ds[..i];
        error := Refusal(lines, tracksLots, ds[i]);
        if error.Some? {
          RefusedEarly(before, tracksLots, ds, i + 1);
          return;
        }
      }
      assert ds[..|ds|] == ds;
      for i := 0 to |ds|
        invariant status == old(status) && receipts == old(receipts)
        invariant AcceptAll(before, ds[..i]) == Ok(lines)
      {
        assert ds[..i + 1][..i] == ds[..i];
        var r := Accept(lines, ds[i]);
        if r.Err? {
          FailedEarly(before, ds, i + 1);
          lines := before;
          return Some(r.error);
        }
        lines := r.value;
      }
      receipts := receipts + [deliveries];
      status := if Complete(lines) then Received else PartiallyReceived;
      return None;
    }
  }
}
