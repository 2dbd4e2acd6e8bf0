/** Checkouts, returns and Z closes of every warehouse, interleaved step by step. */
module Till {
  import opened Money
  import opened SaleLines
  import opened ZTotals

  /** The commercial calendar: the day of an instant, and the first instant of a day. */
  datatype Calendar = Calendar(day: int -> int, start: int -> int)

  /** All the protocol needs of the shop's timezone: a day is the stretch between two starts. */
  ghost predicate Coherent(cal: Calendar) {
    forall t, d :: cal.start(d) <= t <==> d <= cal.day(t)
  }

  datatype Draft = Draft(warehouse: int, terminal: Option<int>, lines: seq<SaleLine>)

  datatype Completed = Completed(warehouse: int, at: int, sale: Sale)

  datatype Refunded = Refunded(warehouse: int, at: int, refund: Refund)

  datatype Z = Z(warehouse: int, number: nat, day: int, closedAt: int, totals: Totals)

  /** What is committed. Sale ids are never reused, even after a draft is deleted. */
  datatype Database = Database(drafts: map<int, Draft>, sales: seq<Completed>, refunds: seq<Refunded>, zs: seq<Z>,
                               nextSale: int, inclusive: bool)

  datatype Request =
    | Checkout(sale: int, payments: seq<Payment>, cashier: (Option<int>, string))
    | Return(sale: int, refund: Option<Refund>)
    | Close(place: int)

  datatype Phase = Started | Cut | Timed | Open | Held | Numbered

  /** A running transaction: what it has read and what it would write. */
  datatype Tx = Tx(request: Request, warehouse: int, phase: Phase, now: int, content: Option<Sale>,
                   totals: Option<Totals>, number: nat)

  datatype Lock = CutLock(warehouse: int) | SaleLock(sale: int) | NumberLock

  datatype State = State(db: Database, clock: int, txs: map<nat, Tx>, locks: map<Lock, nat>)

  /** `Step` lets a transaction do its next action; `Abort` is any failure or crash. */
  datatype Event =
    | Tick(to: int)
    | NewDraft(place: int, terminal: Option<int>)
    | EditDraft(sale: int, lines: seq<SaleLine>)
    | DeleteDraft(sale: int)
    | SetFiscalMode(inclusive: bool)
    | Begin(tx: nat, request: Request)
    | Step(tx: nat)
    | Abort(tx: nat)

  function Filter<T>(rows: seq<T>, p: T -> bool): seq<T> {
    if rows == [] then []
    else
      var last := |rows| - 1;
      Filter(rows[..last], p) + (if p(rows[last]) then [rows[last]] else [])
  }

  function SaleIn(w: int, since: int, until: int): Completed -> bool {
    (c: Completed) => c.warehouse == w && since <= c.at <= until
  }

  function RefundIn(w: int, since: int, until: int): Refunded -> bool {
    (r: Refunded) => r.warehouse == w && since <= r.at <= until
  }

  function SaleOn(cal: Calendar, w: int, d: int): Completed -> bool {
    (c: Completed) => c.warehouse == w && cal.day(c.at) == d
  }

  function RefundOn(cal: Calendar, w: int, d: int): Refunded -> bool {
    (r: Refunded) => r.warehouse == w && cal.day(r.at) == d
  }

  function ZFor(w: int): Z -> bool {
    (z: Z) => z.warehouse == w
  }

  function Contents(rows: seq<Completed>): seq<Sale> {
    if rows == [] then [] else Contents(rows[..|rows| - 1]) + [rows[|rows| - 1].sale]
  }

  function RefundsOf(rows: seq<Refunded>): seq<Refund> {
    if rows == [] then [] else RefundsOf(rows[..|rows| - 1]) + [rows[|rows| - 1].refund]
  }

  /** The report's query: what a warehouse sold and refunded between two instants. */
  ghost function Figures(db: Database, w: int, since: int, until: int): Totals {
    TotalsOf(Contents(Filter(db.sales, SaleIn(w, since, until))), RefundsOf(Filter(db.refunds, RefundIn(w, since, until))))
  }

  /** The same figures over a whole commercial day. */
  ghost function DayFigures(cal: Calendar, db: Database, w: int, d: int): Totals {
    TotalsOf(Contents(Filter(db.sales, SaleOn(cal, w, d))), RefundsOf(Filter(db.refunds, RefundOn(cal, w, d))))
  }

  predicate Closed(db: Database, w: int, d: int) {
    exists z :: z in db.zs && z.warehouse == w && z.day == d
  }

  predicate Pending(db: Database, w: int) {
    exists id :: id in db.drafts && db.drafts[id].warehouse == w && db.drafts[id].lines != []
  }

  function HighestNumber(sales: seq<Completed>): nat {
    if sales == [] then 0
    else
      var before, n := HighestNumber(sales[..|sales| - 1]), sales[|sales| - 1].sale.number;
      if before >= n then before else n
  }

  function HighestZ(zs: seq<Z>): nat {
    if zs == [] then 0
    else
      var before, n := HighestZ(zs[..|zs| - 1]), zs[|zs| - 1].number;
      if before >= n then before else n
  }

  predicate IsCompleted(db: Database, id: int) {
    exists c :: c in db.sales && c.sale.id == id
  }

  ghost function WarehouseOf(db: Database, id: int): Option<int> {
    if id in db.drafts then Some(db.drafts[id].warehouse)
    else if IsCompleted(db, id) then
      var c :| c in db.sales && c.sale.id == id;
      Some(c.warehouse)
    else None
  }

  function Economic(r: Request): bool { r.Checkout? || (r.Return? && r.refund.Some?) }

  function Without(locks: map<Lock, nat>, t: nat): map<Lock, nat> {
    map l | l in locks && locks[l] != t :: locks[l]
  }

  /** The transaction is over: its locks are free, and only `db` tells whether it committed. */
  function Ended(s: State, t: nat, db: Database): State {
    State(db, s.clock, s.txs - {t}, Without(s.locks, t))
  }

  function Advance(s: State, t: nat, tx: Tx): State {
    s.(txs := s.txs[t := tx])
  }

  function Take(s: State, t: nat, l: Lock, tx: Tx): State {
    s.(txs := s.txs[t := tx], locks := s.locks[l := t])
  }

  ghost function StepCheckout(cal: Calendar, s: State, t: nat, tx: Tx): State
    requires tx.request.Checkout?
  {
    var db, id := s.db, tx.request.sale;
    match tx.phase
    case Started => if CutLock(tx.warehouse) in s.locks then s else Take(s, t, CutLock(tx.warehouse), tx.(phase := Cut))
    case Cut => Advance(s, t, tx.(phase := Timed, now := s.clock))
    case Timed => if Closed(db, tx.warehouse, cal.day(tx.now)) then Ended(s, t, db) else Advance(s, t, tx.(phase := Open))
    case Open =>
      if SaleLock(id) in s.locks then s
      else if id !in db.drafts || db.drafts[id].lines == [] then Ended(s, t, db)
      else
        var sale := Sale(id, db.drafts[id].lines, tx.request.payments, db.inclusive, db.drafts[id].terminal,
                         tx.request.cashier, 0);
        if !Settled(sale) then Ended(s, t, db)
        else Take(s, t, SaleLock(id), tx.(phase := Held, content := Some(sale)))
    case Held =>
      if NumberLock in s.locks then s
      else Take(s, t, NumberLock, tx.(phase := Numbered, number := HighestNumber(db.sales) + 1))
    case Numbered =>
      if tx.content.None? then s
      else
        Ended(s, t, db.(drafts := db.drafts - {id},
                        sales := db.sales + [Completed(tx.warehouse, tx.now, tx.content.value.(number := tx.number))]))
  }

  ghost function StepReturn(cal: Calendar, s: State, t: nat, tx: Tx): State
    requires tx.request.Return?
  {
    var db, id := s.db, tx.request.sale;
    match tx.phase
    case Started => if CutLock(tx.warehouse) in s.locks then s else Take(s, t, CutLock(tx.warehouse), tx.(phase := Cut))
    case Cut => Advance(s, t, tx.(phase := Timed, now := s.clock))
    case Timed =>
      if Economic(tx.request) && Closed(db, tx.warehouse, cal.day(tx.now)) then Ended(s, t, db)
      else Advance(s, t, tx.(phase := Open))
    case Open =>
      if SaleLock(id) in s.locks then s
      else if !IsCompleted(db, id) then Ended(s, t, db)
      else Take(s, t, SaleLock(id), tx.(phase := Held))
    case _ =>
      if tx.request.refund.None? then Ended(s, t, db)
      else Ended(s, t, db.(refunds := db.refunds + [Refunded(tx.warehouse, tx.now, tx.request.refund.value)]))
  }

  ghost function StepClose(cal: Calendar, s: State, t: nat, tx: Tx): State
    requires tx.request.Close?
  {
    var db, w, d := s.db, tx.warehouse, cal.day(tx.now);
    match tx.phase
    case Started => if CutLock(w) in s.locks then s else Take(s, t, CutLock(w), tx.(phase := Cut))
    case Cut => Advance(s, t, tx.(phase := Timed, now := s.clock))
    case Timed =>
      if Pending(db, w) then Ended(s, t, db)
      else Advance(s, t, tx.(phase := Open, totals := Some(Figures(db, w, cal.start(d), tx.now))))
    case Open => if Closed(db, w, d) then Ended(s, t, db) else Advance(s, t, tx.(phase := Held))
    case Held => Advance(s, t, tx.(phase := Numbered, number := HighestZ(Filter(db.zs, ZFor(w))) + 1))
    case Numbered =>
      if tx.totals.None? then s
      else Ended(s, t, db.(zs := db.zs + [Z(w, tx.number, d, tx.now, tx.totals.value)]))
  }

  ghost function Next(cal: Calendar, s: State, e: Event): State {
    var db := s.db;
    match e
    case Tick(to) => if to >= s.clock then s.(clock := to) else s
    case NewDraft(w, terminal) =>
      s.(db := db.(drafts := db.drafts[db.nextSale := Draft(w, terminal, [])], nextSale := db.nextSale + 1))
    case EditDraft(id, lines) =>
      if id in db.drafts && SaleLock(id) !in s.locks then
        s.(db := db.(drafts := db.drafts[id := db.drafts[id].(lines := lines)])) else s
    case DeleteDraft(id) =>
      if id in db.drafts && SaleLock(id) !in s.locks then s.(db := db.(drafts := db.drafts - {id})) else s
    case SetFiscalMode(b) => s.(db := db.(inclusive := b))
    case Begin(t, request) =>
      if t in s.txs then s
      else
        var w := if request.Close? then Some(request.place) else WarehouseOf(db, request.sale);
        if w.None? then s
        else s.(txs := s.txs[t := Tx(request, w.value, Started, 0, None, None, 0)])
    case Step(t) =>
      if t !in s.txs then s
      else
        var tx := s.txs[t];
        if tx.request.Checkout? then StepCheckout(cal, s, t, tx)
        else if tx.request.Return? then StepReturn(cal, s, t, tx)
        else StepClose(cal, s, t, tx)
    case Abort(t) => if t in s.txs then Ended(s, t, db) else s
  }

  ghost function Run(cal: Calendar, s: State, events: seq<Event>): State {
    if events == [] then s else Next(cal, Run(cal, s, events[..|events| - 1]), events[|events| - 1])
  }

  ghost predicate Initial(s: State) {
    s.db.drafts == map[] && s.db.sales == [] && s.db.refunds == [] && s.db.zs == [] && s.txs == map[] && s.locks == map[]
  }

  // What every interleaving keeps.

  /** Sales are numbered 1, 2, 3 and so on; each settled its charge; one warehouse's instants never go back. */
  ghost predicate SalesInOrder(db: Database, clock: int) {
    && (forall i :: 0 <= i < |db.sales| ==>
          && db.sales[i].sale.number == i + 1 && db.sales[i].at <= clock && Settled(db.sales[i].sale)
          && db.sales[i].sale.id < db.nextSale && db.sales[i].sale.id !in db.drafts)
    && (forall i, j :: 0 <= i < j < |db.sales| ==>
          && db.sales[i].sale.id != db.sales[j].sale.id
          && (db.sales[i].warehouse == db.sales[j].warehouse ==> db.sales[i].at <= db.sales[j].at))
    && (forall r :: r in db.refunds ==> r.at <= clock)
    && (forall id :: id in db.drafts ==> id < db.nextSale)
  }

  /** The Zs of a warehouse are numbered 1, 2, 3 and so on, one a day, in the order of their days. */
  ghost predicate ZsInOrder(cal: Calendar, zs: seq<Z>, clock: int) {
    zs != [] ==>
      var front, z := zs[..|zs| - 1], zs[|zs| - 1];
      && ZsInOrder(cal, front, clock)
      && z.number == |Filter(front, ZFor(z.warehouse))| + 1
      && z.closedAt <= clock && z.day == cal.day(z.closedAt)
      && forall y :: y in front && y.warehouse == z.warehouse ==> y.day < z.day
  }

  /** Every Z still says what its day adds up to now. */
  ghost predicate ZsFrozen(cal: Calendar, db: Database) {
    forall z :: z in db.zs ==> z.totals == DayFigures(cal, db, z.warehouse, z.day)
  }

  ghost predicate DatabaseOk(cal: Calendar, db: Database, clock: int) {
    SalesInOrder(db, clock) && ZsInOrder(cal, db.zs, clock) && ZsFrozen(cal, db)
  }

  ghost predicate Holds(locks: map<Lock, nat>, t: nat, l: Lock) { l in locks && locks[l] == t }

  /** Nothing of the warehouse is later than `now`. */
  ghost predicate NothingAfter(db: Database, w: int, now: int) {
    && (forall c :: c in db.sales && c.warehouse == w ==> c.at <= now)
    && (forall r :: r in db.refunds && r.warehouse == w ==> r.at <= now)
    && (forall z :: z in db.zs && z.warehouse == w ==> z.closedAt <= now)
  }

  ghost predicate SaleIsIn(db: Database, id: int, w: int) {
    && id < db.nextSale
    && (id in db.drafts ==> db.drafts[id].warehouse == w)
    && (forall c :: c in db.sales && c.sale.id == id ==> c.warehouse == w)
  }

  ghost predicate Late(p: Phase) { p.Open? || p.Held? || p.Numbered? }

  ghost predicate LocksOk(locks: map<Lock, nat>, t: nat, tx: Tx) {
    && (!tx.phase.Started? ==> Holds(locks, t, CutLock(tx.warehouse)))
    && (!tx.request.Close? && (tx.phase.Held? || tx.phase.Numbered?) ==> Holds(locks, t, SaleLock(tx.request.sale)))
    && (tx.request.Checkout? && tx.phase.Numbered? ==> Holds(locks, t, NumberLock))
  }

  /** The sale is the whole cart, as the request pays for it. */
  ghost predicate IsCart(sale: Sale, draft: Draft, request: Request)
    requires request.Checkout?
  {
    && draft.lines != [] && sale.lines == draft.lines && sale.terminal == draft.terminal
    && sale.id == request.sale && sale.payments == request.payments && sale.cashier == request.cashier
  }

  ghost predicate CheckoutOk(db: Database, tx: Tx) {
    tx.request.Checkout? && (tx.phase.Held? || tx.phase.Numbered?) ==>
      && tx.request.sale in db.drafts
      && tx.content.Some? && IsCart(tx.content.value, db.drafts[tx.request.sale], tx.request) && Settled(tx.content.value)
      && (tx.phase.Numbered? ==> tx.number == |db.sales| + 1)
  }

  ghost predicate CloseOk(cal: Calendar, db: Database, tx: Tx) {
    tx.request.Close? && Late(tx.phase) ==>
      && tx.totals == Some(DayFigures(cal, db, tx.warehouse, cal.day(tx.now)))
      && (!tx.phase.Open? ==> !Closed(db, tx.warehouse, cal.day(tx.now)))
      && (tx.phase.Numbered? ==> tx.number == |Filter(db.zs, ZFor(tx.warehouse))| + 1)
  }

  ghost predicate TxOk(cal: Calendar, db: Database, clock: int, locks: map<Lock, nat>, t: nat, tx: Tx) {
    && LocksOk(locks, t, tx)
    && (!tx.request.Close? ==> SaleIsIn(db, tx.request.sale, tx.warehouse))
    && (!tx.phase.Started? && !tx.phase.Cut? ==> tx.now <= clock && NothingAfter(db, tx.warehouse, tx.now))
    && (Economic(tx.request) && Late(tx.phase) ==> !Closed(db, tx.warehouse, cal.day(tx.now)))
    && CheckoutOk(db, tx) && CloseOk(cal, db, tx)
    && (tx.content.Some? ==> tx.request.Checkout? && (tx.phase.Held? || tx.phase.Numbered?))
  }

  ghost predicate Inv(cal: Calendar, s: State) {
    && DatabaseOk(cal, s.db, s.clock)
    && forall t :: t in s.txs ==> TxOk(cal, s.db, s.clock, s.locks, t, s.txs[t])
  }

  lemma FilterAppend<T>(rows: seq<T>, x: T, p: T -> bool)
    ensures Filter(rows + [x], p) == if p(x) then Filter(rows, p) + [x] else Filter(rows, p)
  {
    assert (rows + [x])[..|rows|] == rows;
  }

  lemma {:induction false} FilterSame<T>(rows: seq<T>, p: T -> bool, q: T -> bool)
    requires forall x :: x in rows ==> p(x) == q(x)
    ensures Filter(rows, p) == Filter(rows, q)
  {
    if rows != [] {
      assert rows[|rows| - 1] in rows;
      FilterSame(rows[..|rows| - 1], p, q);
    }
  }

  /** At closing time the report's window is the whole day so far: nothing is later, and the day starts at its start. */
  lemma WindowIsDay(cal: Calendar, db: Database, w: int, now: int)
    requires Coherent(cal) && NothingAfter(db, w, now)
    ensures Figures(db, w, cal.start(cal.day(now)), now) == DayFigures(cal, db, w, cal.day(now))
  {
    hide TotalsOf, Contents, RefundsOf;
    var d := cal.day(now);
    forall c | c in db.sales ensures SaleIn(w, cal.start(d), now)(c) == SaleOn(cal, w, d)(c) {
      SameDay(cal, c.at, now);
    }
    forall r | r in db.refunds ensures RefundIn(w, cal.start(d), now)(r) == RefundOn(cal, w, d)(r) {
      SameDay(cal, r.at, now);
    }
    FilterSame(db.sales, SaleIn(w, cal.start(d), now), SaleOn(cal, w, d));
    FilterSame(db.refunds, RefundIn(w, cal.start(d), now), RefundOn(cal, w, d));
  }

  lemma SameDay(cal: Calendar, t: int, now: int)
    requires Coherent(cal)
    ensures t <= now ==> cal.day(t) <= cal.day(now)
    ensures t <= now ==> (cal.start(cal.day(now)) <= t <==> cal.day(t) == cal.day(now))
  {
    var d, today := cal.day(t), cal.day(now);
    assert cal.start(d) <= t <==> d <= cal.day(t);
    assert cal.start(d) <= now <==> d <= cal.day(now);
    assert cal.start(today) <= t <==> today <= cal.day(t);
  }

  lemma {:induction false} HighestIsCount(sales: seq<Completed>)
    requires forall i :: 0 <= i < |sales| ==> sales[i].sale.number == i + 1
    ensures HighestNumber(sales) == |sales|
  {
    if sales != [] {
      HighestIsCount(sales[..|sales| - 1]);
    }
  }

  lemma {:induction false} HighestZIsCount(cal: Calendar, zs: seq<Z>, clock: int, w: int)
    requires ZsInOrder(cal, zs, clock)
    ensures HighestZ(Filter(zs, ZFor(w))) == |Filter(zs, ZFor(w))|
  {
    if zs != [] {
      var front, z := zs[..|zs| - 1], zs[|zs| - 1];
      HighestZIsCount(cal, front, clock, w);
      var f := Filter(front, ZFor(w));
      assert (f + [z])[..|f|] == f;
      if z.warehouse == w {
        assert Filter(zs, ZFor(w)) == f + [z];
        assert z.number == |f| + 1;
        assert HighestZ(f + [z]) == |f| + 1;
      } else {
        assert Filter(zs, ZFor(w)) == f;
      }
    }
  }

  // One lemma per kind of step.

  lemma AdvanceKeeps(cal: Calendar, s: State, t: nat, tx: Tx)
    requires Inv(cal, s) && TxOk(cal, s.db, s.clock, s.locks, t, tx)
    ensures Inv(cal, Advance(s, t, tx))
  {
    hide DatabaseOk, TxOk;
  }

  lemma MoreLocks(cal: Calendar, s: State, t: nat, l: Lock, u: nat, tx: Tx)
    requires l !in s.locks && TxOk(cal, s.db, s.clock, s.locks, u, tx)
    ensures TxOk(cal, s.db, s.clock, s.locks[l := t], u, tx)
  {
    hide SaleIsIn, NothingAfter, Closed, CheckoutOk, CloseOk;
  }

  lemma TakeKeeps(cal: Calendar, s: State, t: nat, l: Lock, tx: Tx)
    requires Inv(cal, s) && l !in s.locks && TxOk(cal, s.db, s.clock, s.locks[l := t], t, tx)
    ensures Inv(cal, Take(s, t, l, tx))
  {
    hide DatabaseOk, TxOk;
    forall u | u in s.txs ensures TxOk(cal, s.db, s.clock, s.locks[l := t], u, s.txs[u]) {
      MoreLocks(cal, s, t, l, u, s.txs[u]);
    }
  }

  lemma OtherLocks(cal: Calendar, db: Database, clock: int, locks: map<Lock, nat>, t: nat, u: nat, tx: Tx)
    requires u != t && TxOk(cal, db, clock, locks, u, tx)
    ensures TxOk(cal, db, clock, Without(locks, t), u, tx)
  {
    hide SaleIsIn, NothingAfter, Closed, CheckoutOk, CloseOk;
  }

  /** Ending a transaction: the others only need to be right about the database it leaves. */
  lemma EndKeeps(cal: Calendar, s: State, t: nat, db: Database)
    requires DatabaseOk(cal, db, s.clock)
    requires forall u :: u in s.txs && u != t ==> TxOk(cal, db, s.clock, s.locks, u, s.txs[u])
    ensures Inv(cal, Ended(s, t, db))
  {
    hide DatabaseOk, TxOk, Without;
    forall u | u in s.txs && u != t ensures TxOk(cal, db, s.clock, Without(s.locks, t), u, s.txs[u]) {
      OtherLocks(cal, db, s.clock, s.locks, t, u, s.txs[u]);
    }
  }

  lemma RollbackKeeps(cal: Calendar, s: State, t: nat)
    requires Inv(cal, s)
    ensures Inv(cal, Ended(s, t, s.db))
  {
    hide DatabaseOk, TxOk;
    EndKeeps(cal, s, t, s.db);
  }

  lemma DayUntouchedBySale(cal: Calendar, db: Database, c: Completed, w: int, d: int)
    requires c.warehouse != w || cal.day(c.at) != d
    ensures DayFigures(cal, db.(drafts := db.drafts - {c.sale.id}, sales := db.sales + [c]), w, d)
         == DayFigures(cal, db, w, d)
  {
    hide TotalsOf, Contents, RefundsOf;
    FilterAppend(db.sales, c, SaleOn(cal, w, d));
  }

  lemma DayUntouchedByRefund(cal: Calendar, db: Database, r: Refunded, w: int, d: int)
    requires r.warehouse != w || cal.day(r.at) != d
    ensures DayFigures(cal, db.(refunds := db.refunds + [r]), w, d) == DayFigures(cal, db, w, d)
  {
    hide TotalsOf, Contents, RefundsOf;
    FilterAppend(db.refunds, r, RefundOn(cal, w, d));
  }

  /** Two transactions past their cut are in different warehouses. */
  lemma DifferentCuts(cal: Calendar, s: State, t: nat, u: nat)
    requires Inv(cal, s) && t in s.txs && u in s.txs && t != u
    requires !s.txs[t].phase.Started? && !s.txs[u].phase.Started?
    ensures s.txs[t].warehouse != s.txs[u].warehouse
  {
    hide DatabaseOk, SaleIsIn, NothingAfter, Closed, CheckoutOk, CloseOk;
    assert TxOk(cal, s.db, s.clock, s.locks, t, s.txs[t]);
    assert TxOk(cal, s.db, s.clock, s.locks, u, s.txs[u]);
  }

  lemma CommitCheckoutKeeps(cal: Calendar, s: State, t: nat)
    requires Inv(cal, s) && t in s.txs && s.txs[t].request.Checkout? && s.txs[t].phase.Numbered?
    ensures Inv(cal, StepCheckout(cal, s, t, s.txs[t]))
  {
    hide TotalsOf, DayFigures, Settled, ZsInOrder;
    var tx, db := s.txs[t], s.db;
    assert TxOk(cal, db, s.clock, s.locks, t, tx);
    var sold := tx.content.value.(number := tx.number);
    NumberDoesNotSettle(tx.content.value, tx.number);
    var c := Completed(tx.warehouse, tx.now, sold);
    var after := db.(drafts := db.drafts - {tx.request.sale}, sales := db.sales + [c]);
    assert SalesInOrder(after, s.clock);
    forall z | z in db.zs ensures z.totals == DayFigures(cal, after, z.warehouse, z.day) {
      DayUntouchedBySale(cal, db, c, z.warehouse, z.day);
    }
    forall u | u in s.txs && u != t ensures TxOk(cal, after, s.clock, s.locks, u, s.txs[u]) {
      SaleKeepsOther(cal, s, t, u, c, after);
    }
    EndKeeps(cal, s, t, after);
  }

  lemma NumberDoesNotSettle(sale: Sale, n: nat)
    requires Settled(sale)
    ensures Settled(sale.(number := n))
  {}

  lemma SaleKeepsOther(cal: Calendar, s: State, t: nat, u: nat, c: Completed, after: Database)
    requires Inv(cal, s) && t in s.txs && u in s.txs && u != t
    requires s.txs[t].request.Checkout? && s.txs[t].phase.Numbered?
    requires c.warehouse == s.txs[t].warehouse && c.at == s.txs[t].now && c.sale.id == s.txs[t].request.sale
    requires after == s.db.(drafts := s.db.drafts - {c.sale.id}, sales := s.db.sales + [c])
    ensures TxOk(cal, after, s.clock, s.locks, u, s.txs[u])
  {
    hide DayFigures, Settled, DatabaseOk;
    var db, tx, other := s.db, s.txs[t], s.txs[u];
    assert TxOk(cal, db, s.clock, s.locks, t, tx);
    assert TxOk(cal, db, s.clock, s.locks, u, other);
    if !other.phase.Started? {
      DifferentCuts(cal, s, t, u);
      DayUntouchedBySale(cal, db, c, other.warehouse, cal.day(other.now));
    }
  }

  lemma OpenCheckoutKeeps(cal: Calendar, s: State, t: nat)
    requires Inv(cal, s) && t in s.txs && s.txs[t].request.Checkout? && s.txs[t].phase.Open?
    ensures Inv(cal, StepCheckout(cal, s, t, s.txs[t]))
  {
    var tx, db := s.txs[t], s.db;
    hide Settled, DatabaseOk, Ended, Take, NothingAfter, SaleIsIn, Closed;
    assert TxOk(cal, db, s.clock, s.locks, t, tx);
    RollbackKeeps(cal, s, t);
    var id := tx.request.sale;
    if SaleLock(id) !in s.locks && id in db.drafts {
      var sale := Sale(id, db.drafts[id].lines, tx.request.payments, db.inclusive, db.drafts[id].terminal,
                       tx.request.cashier, 0);
      if db.drafts[id].lines != [] && Settled(sale) {
        TakeKeeps(cal, s, t, SaleLock(id), tx.(phase := Held, content := Some(sale)));
      }
    }
  }

  lemma NumberedIsOk(cal: Calendar, db: Database, clock: int, locks: map<Lock, nat>, t: nat, tx: Tx)
    requires tx.request.Checkout? && tx.phase.Held? && TxOk(cal, db, clock, locks, t, tx)
    ensures TxOk(cal, db, clock, locks[NumberLock := t], t, tx.(phase := Numbered, number := |db.sales| + 1))
  {
    hide Settled, NothingAfter, SaleIsIn, Closed, DayFigures, IsCart;
  }

  lemma HeldCheckoutKeeps(cal: Calendar, s: State, t: nat)
    requires Inv(cal, s) && t in s.txs && s.txs[t].request.Checkout? && s.txs[t].phase.Held?
    ensures Inv(cal, StepCheckout(cal, s, t, s.txs[t]))
  {
    var tx, db := s.txs[t], s.db;
    assert TxOk(cal, db, s.clock, s.locks, t, tx);
    hide Settled, TxOk, DatabaseOk, Take, Closed, HighestNumber;
    if NumberLock !in s.locks {
      NextNumberIsCount(cal, s);
      NumberedIsOk(cal, db, s.clock, s.locks, t, tx);
      TakeKeeps(cal, s, t, NumberLock, tx.(phase := Numbered, number := HighestNumber(db.sales) + 1));
    }
  }

  lemma CheckoutKeeps(cal: Calendar, s: State, t: nat)
    requires Inv(cal, s) && t in s.txs && s.txs[t].request.Checkout?
    ensures Inv(cal, StepCheckout(cal, s, t, s.txs[t]))
  {
    var tx, db := s.txs[t], s.db;
    hide TotalsOf, DayFigures, Settled, DatabaseOk, Ended, Take, Advance, NothingAfter, SaleIsIn, CheckoutOk, HighestNumber;
    match tx.phase
    case Started =>
      if CutLock(tx.warehouse) !in s.locks {
        TakeCut(cal, s, t);
      }
    case Cut =>
      NothingIsLater(cal, s, tx.warehouse);
      ReadClock(cal, s, t);
    case Timed =>
      RollbackKeeps(cal, s, t);
      if !Closed(db, tx.warehouse, cal.day(tx.now)) {
        FindOpen(cal, s, t);
      }
    case Open => OpenCheckoutKeeps(cal, s, t);
    case Held => HeldCheckoutKeeps(cal, s, t);
    case Numbered => CommitCheckoutKeeps(cal, s, t);
  }

  /** The three first steps that checkouts and returns share: the cut, the clock, the day test. */
  lemma TakeCut(cal: Calendar, s: State, t: nat)
    requires Inv(cal, s) && t in s.txs && s.txs[t].phase.Started? && CutLock(s.txs[t].warehouse) !in s.locks
    ensures Inv(cal, Take(s, t, CutLock(s.txs[t].warehouse), s.txs[t].(phase := Cut)))
  {
    hide DatabaseOk, Take, NothingAfter, SaleIsIn, Closed;
    var tx := s.txs[t];
    assert TxOk(cal, s.db, s.clock, s.locks, t, tx);
    TakeKeeps(cal, s, t, CutLock(tx.warehouse), tx.(phase := Cut));
  }

  lemma ReadClock(cal: Calendar, s: State, t: nat)
    requires Inv(cal, s) && t in s.txs && s.txs[t].phase.Cut? && NothingAfter(s.db, s.txs[t].warehouse, s.clock)
    ensures Inv(cal, Advance(s, t, s.txs[t].(phase := Timed, now := s.clock)))
  {
    hide DatabaseOk, Advance, NothingAfter, SaleIsIn, Closed;
    var tx := s.txs[t];
    assert TxOk(cal, s.db, s.clock, s.locks, t, tx);
    AdvanceKeeps(cal, s, t, tx.(phase := Timed, now := s.clock));
  }

  lemma FindOpen(cal: Calendar, s: State, t: nat)
    requires Inv(cal, s) && t in s.txs && s.txs[t].phase.Timed? && !s.txs[t].request.Close?
    requires Economic(s.txs[t].request) ==> !Closed(s.db, s.txs[t].warehouse, cal.day(s.txs[t].now))
    ensures Inv(cal, Advance(s, t, s.txs[t].(phase := Open)))
  {
    hide DatabaseOk, Advance, NothingAfter, SaleIsIn, Closed;
    var tx := s.txs[t];
    assert TxOk(cal, s.db, s.clock, s.locks, t, tx);
    AdvanceKeeps(cal, s, t, tx.(phase := Open));
  }

  /** Time only moves forward, so nothing committed is later than the clock. */
  lemma NothingIsLater(cal: Calendar, s: State, w: int)
    requires Inv(cal, s)
    ensures NothingAfter(s.db, w, s.clock)
  {
    hide DayFigures, Settled;
    ClosedBefore(cal, s.db.zs, s.clock);
  }

  lemma {:induction false} ClosedBefore(cal: Calendar, zs: seq<Z>, clock: int)
    requires ZsInOrder(cal, zs, clock)
    ensures forall z :: z in zs ==> z.closedAt <= clock && z.day == cal.day(z.closedAt)
  {
    if zs != [] {
      ClosedBefore(cal, zs[..|zs| - 1], clock);
      assert zs == zs[..|zs| - 1] + [zs[|zs| - 1]];
    }
  }

  lemma NextNumberIsCount(cal: Calendar, s: State)
    requires Inv(cal, s)
    ensures HighestNumber(s.db.sales) == |s.db.sales|
  {
    hide DayFigures, Settled;
    HighestIsCount(s.db.sales);
  }

  lemma ReturnKeeps(cal: Calendar, s: State, t: nat)
    requires Inv(cal, s) && t in s.txs && s.txs[t].request.Return?
    ensures Inv(cal, StepReturn(cal, s, t, s.txs[t]))
  {
    var tx, db := s.txs[t], s.db;
    hide TotalsOf, DayFigures, Settled, DatabaseOk, Ended, Take, Advance;
    assert TxOk(cal, db, s.clock, s.locks, t, tx);
    RollbackKeeps(cal, s, t);
    match tx.phase
    case Started =>
      if CutLock(tx.warehouse) !in s.locks {
        TakeCut(cal, s, t);
      }
    case Cut =>
      NothingIsLater(cal, s, tx.warehouse);
      ReadClock(cal, s, t);
    case Timed =>
      if !(Economic(tx.request) && Closed(db, tx.warehouse, cal.day(tx.now))) {
        FindOpen(cal, s, t);
      }
    case Open =>
      if SaleLock(tx.request.sale) !in s.locks {
        TakeKeeps(cal, s, t, SaleLock(tx.request.sale), tx.(phase := Held));
      }
    case _ =>
      if tx.request.refund.Some? {
        CommitReturnKeeps(cal, s, t);
      }
  }

  lemma CommitReturnKeeps(cal: Calendar, s: State, t: nat)
    requires Inv(cal, s) && t in s.txs && s.txs[t].request.Return? && s.txs[t].request.refund.Some?
    requires s.txs[t].phase.Held? || s.txs[t].phase.Numbered?
    ensures Inv(cal, StepReturn(cal, s, t, s.txs[t]))
  {
    hide TotalsOf, DayFigures, Settled, ZsInOrder;
    var tx, db := s.txs[t], s.db;
    assert TxOk(cal, db, s.clock, s.locks, t, tx);
    var r := Refunded(tx.warehouse, tx.now, tx.request.refund.value);
    var after := db.(refunds := db.refunds + [r]);
    forall z | z in db.zs ensures z.totals == DayFigures(cal, after, z.warehouse, z.day) {
      DayUntouchedByRefund(cal, db, r, z.warehouse, z.day);
    }
    forall u | u in s.txs && u != t ensures TxOk(cal, after, s.clock, s.locks, u, s.txs[u]) {
      RefundKeepsOther(cal, s, t, u, r, after);
    }
    EndKeeps(cal, s, t, after);
  }

  lemma RefundKeepsOther(cal: Calendar, s: State, t: nat, u: nat, r: Refunded, after: Database)
    requires Inv(cal, s) && t in s.txs && u in s.txs && u != t && !s.txs[t].phase.Started?
    requires r.warehouse == s.txs[t].warehouse && after == s.db.(refunds := s.db.refunds + [r])
    ensures TxOk(cal, after, s.clock, s.locks, u, s.txs[u])
  {
    hide DayFigures, Settled, DatabaseOk;
    var other := s.txs[u];
    assert TxOk(cal, s.db, s.clock, s.locks, u, other);
    if !other.phase.Started? {
      DifferentCuts(cal, s, t, u);
      DayUntouchedByRefund(cal, s.db, r, other.warehouse, cal.day(other.now));
    }
  }

  lemma CloseKeeps(cal: Calendar, s: State, t: nat)
    requires Coherent(cal)
    requires Inv(cal, s) && t in s.txs && s.txs[t].request.Close?
    ensures Inv(cal, StepClose(cal, s, t, s.txs[t]))
  {
    var tx, db := s.txs[t], s.db;
    hide TotalsOf, DayFigures, Settled, DatabaseOk, Ended, Take, Advance, Figures, NothingAfter, SaleIsIn, CheckoutOk, HighestZ, Filter;
    assert TxOk(cal, db, s.clock, s.locks, t, tx);
    RollbackKeeps(cal, s, t);
    var d := cal.day(tx.now);
    match tx.phase
    case Started =>
      if CutLock(tx.warehouse) !in s.locks {
        TakeCut(cal, s, t);
      }
    case Cut =>
      NothingIsLater(cal, s, tx.warehouse);
      ReadClock(cal, s, t);
    case Timed =>
      CountKeeps(cal, s, t);
    case Open =>
      if !Closed(db, tx.warehouse, d) {
        AdvanceKeeps(cal, s, t, tx.(phase := Held));
      }
    case Held =>
      NextZIsCount(cal, s, tx.warehouse);
      AdvanceKeeps(cal, s, t, tx.(phase := Numbered, number := HighestZ(Filter(db.zs, ZFor(tx.warehouse))) + 1));
    case Numbered =>
      CommitCloseKeeps(cal, s, t);
  }

  lemma CountKeeps(cal: Calendar, s: State, t: nat)
    requires Coherent(cal)
    requires Inv(cal, s) && t in s.txs && s.txs[t].request.Close? && s.txs[t].phase.Timed?
    ensures Inv(cal, StepClose(cal, s, t, s.txs[t]))
  {
    var tx, db := s.txs[t], s.db;
    hide TotalsOf, DayFigures, Settled, DatabaseOk, Ended, Take, Advance, Figures, NothingAfter, SaleIsIn;
    assert TxOk(cal, db, s.clock, s.locks, t, tx);
    RollbackKeeps(cal, s, t);
    WindowIsDay(cal, db, tx.warehouse, tx.now);
    var totals := Figures(db, tx.warehouse, cal.start(cal.day(tx.now)), tx.now);
    AdvanceKeeps(cal, s, t, tx.(phase := Open, totals := Some(totals)));
  }

  lemma NextZIsCount(cal: Calendar, s: State, w: int)
    requires Inv(cal, s)
    ensures HighestZ(Filter(s.db.zs, ZFor(w))) == |Filter(s.db.zs, ZFor(w))|
  {
    hide DayFigures, Settled;
    HighestZIsCount(cal, s.db.zs, s.clock, w);
  }

  /** A new Z of a later day, with the figures of its day, leaves the database in order. */
  lemma CloseKeepsDatabase(cal: Calendar, db: Database, clock: int, z: Z)
    requires Coherent(cal) && DatabaseOk(cal, db, clock)
    requires z.number == |Filter(db.zs, ZFor(z.warehouse))| + 1 && z.closedAt <= clock && z.day == cal.day(z.closedAt)
    requires NothingAfter(db, z.warehouse, z.closedAt) && !Closed(db, z.warehouse, z.day)
    requires z.totals == DayFigures(cal, db, z.warehouse, z.day)
    ensures DatabaseOk(cal, db.(zs := db.zs + [z]), clock)
  {
    hide TotalsOf, DayFigures, Settled, Filter;
    var after := db.(zs := db.zs + [z]);
    assert after.zs[..|db.zs|] == db.zs;
    ClosedBefore(cal, db.zs, clock);
    forall y | y in db.zs && y.warehouse == z.warehouse ensures y.day < z.day {
      SameDay(cal, y.closedAt, z.closedAt);
    }
    forall y | y in after.zs ensures y.totals == DayFigures(cal, after, y.warehouse, y.day) {
      ZsDoNotCount(cal, db, z, y.warehouse, y.day);
    }
  }

  lemma CommitCloseKeeps(cal: Calendar, s: State, t: nat)
    requires Coherent(cal)
    requires Inv(cal, s) && t in s.txs && s.txs[t].request.Close? && s.txs[t].phase.Numbered?
    ensures Inv(cal, StepClose(cal, s, t, s.txs[t]))
  {
    hide DatabaseOk, DayFigures, Settled, Ended, Filter, NothingAfter, Closed, SaleIsIn;
    var tx, db := s.txs[t], s.db;
    assert TxOk(cal, db, s.clock, s.locks, t, tx);
    var z := Z(tx.warehouse, tx.number, cal.day(tx.now), tx.now, tx.totals.value);
    var after := db.(zs := db.zs + [z]);
    CloseKeepsDatabase(cal, db, s.clock, z);
    hide TxOk;
    forall u | u in s.txs && u != t ensures TxOk(cal, after, s.clock, s.locks, u, s.txs[u]) {
      CloseKeepsOther(cal, s, t, u, z, after);
    }
    EndKeeps(cal, s, t, after);
  }

  lemma ZsDoNotCount(cal: Calendar, db: Database, z: Z, w: int, d: int)
    ensures DayFigures(cal, db.(zs := db.zs + [z]), w, d) == DayFigures(cal, db, w, d)
  {
    hide TotalsOf;
  }

  lemma CloseKeepsOther(cal: Calendar, s: State, t: nat, u: nat, z: Z, after: Database)
    requires Inv(cal, s) && t in s.txs && u in s.txs && u != t && !s.txs[t].phase.Started?
    requires z.warehouse == s.txs[t].warehouse && after == s.db.(zs := s.db.zs + [z])
    ensures TxOk(cal, after, s.clock, s.locks, u, s.txs[u])
  {
    hide DayFigures, Settled, DatabaseOk;
    var other := s.txs[u];
    assert TxOk(cal, s.db, s.clock, s.locks, u, other);
    ZsDoNotCount(cal, s.db, z, other.warehouse, cal.day(other.now));
    if !other.phase.Started? {
      DifferentCuts(cal, s, t, u);
      FilterAppend(s.db.zs, z, ZFor(other.warehouse));
    }
  }

  lemma TickKeeps(cal: Calendar, s: State, to: int)
    requires Inv(cal, s) && s.clock <= to
    ensures Inv(cal, s.(clock := to))
  {
    hide DayFigures, Settled;
    LaterClock(cal, s.db.zs, s.clock, to);
    forall t | t in s.txs ensures TxOk(cal, s.db, to, s.locks, t, s.txs[t]) {
      assert TxOk(cal, s.db, s.clock, s.locks, t, s.txs[t]);
    }
  }

  lemma {:induction false} LaterClock(cal: Calendar, zs: seq<Z>, clock: int, to: int)
    requires ZsInOrder(cal, zs, clock) && clock <= to
    ensures ZsInOrder(cal, zs, to)
  {
    if zs != [] {
      LaterClock(cal, zs[..|zs| - 1], clock, to);
    }
  }

  /** Carts, and the fiscal mode of future sales, can change freely as long as no cart held by a checkout does. */
  lemma CartsKeep(cal: Calendar, s: State, after: Database)
    requires Inv(cal, s)
    requires after.sales == s.db.sales && after.refunds == s.db.refunds && after.zs == s.db.zs
    requires s.db.nextSale <= after.nextSale
    requires forall id :: id in after.drafts ==> id < after.nextSale
    requires forall id :: id in after.drafts && id < s.db.nextSale ==>
               id in s.db.drafts && after.drafts[id].warehouse == s.db.drafts[id].warehouse
    requires forall id :: id in s.db.drafts && SaleLock(id) in s.locks ==>
               id in after.drafts && after.drafts[id] == s.db.drafts[id]
    ensures Inv(cal, s.(db := after))
  {
    hide TotalsOf, Contents, RefundsOf, Filter, Settled, ZsInOrder;
    forall w, d ensures DayFigures(cal, after, w, d) == DayFigures(cal, s.db, w, d) {}
    hide DayFigures;
    forall t | t in s.txs ensures TxOk(cal, after, s.clock, s.locks, t, s.txs[t]) {
      assert TxOk(cal, s.db, s.clock, s.locks, t, s.txs[t]);
    }
  }

  lemma BeginKeeps(cal: Calendar, s: State, t: nat, request: Request, w: int)
    requires Inv(cal, s) && t !in s.txs
    requires !request.Close? ==> WarehouseOf(s.db, request.sale) == Some(w)
    ensures Inv(cal, s.(txs := s.txs[t := Tx(request, w, Started, 0, None, None, 0)]))
  {
    hide DayFigures, Settled, ZsInOrder, NothingAfter;
    assert TxOk(cal, s.db, s.clock, s.locks, t, Tx(request, w, Started, 0, None, None, 0));
  }

  lemma {:induction false} NextKeeps(cal: Calendar, s: State, e: Event)
    requires Coherent(cal) && Inv(cal, s)
    ensures Inv(cal, Next(cal, s, e))
  {
    hide TotalsOf, DayFigures, Settled, DatabaseOk, TxOk;
    match e
    case Tick(to) => if to >= s.clock { TickKeeps(cal, s, to); }
    case Begin(t, request) =>
      var w := if request.Close? then Some(request.place) else WarehouseOf(s.db, request.sale);
      if t !in s.txs && w.Some? { BeginKeeps(cal, s, t, request, w.value); }
    case Step(t) =>
      if t in s.txs {
        if s.txs[t].request.Checkout? { CheckoutKeeps(cal, s, t); }
        else if s.txs[t].request.Return? { ReturnKeeps(cal, s, t); }
        else { CloseKeeps(cal, s, t); }
      }
    case Abort(t) => if t in s.txs { RollbackKeeps(cal, s, t); }
    case _ =>
      DraftIdsAreOld(cal, s);
      CartsKeep(cal, s, Next(cal, s, e).db);
  }

  lemma DraftIdsAreOld(cal: Calendar, s: State)
    requires Inv(cal, s)
    ensures forall id :: id in s.db.drafts ==> id < s.db.nextSale
  {
    hide DayFigures, Settled, ZsInOrder, TxOk;
  }

  /** Every interleaving of every number of tills keeps all of it. */
  lemma {:induction false} RunKeeps(cal: Calendar, s: State, events: seq<Event>)
    requires Coherent(cal) && Inv(cal, s)
    ensures Inv(cal, Run(cal, s, events))
  {
    if events != [] {
      RunKeeps(cal, s, events[..|events| - 1]);
      NextKeeps(cal, Run(cal, s, events[..|events| - 1]), events[|events| - 1]);
    }
  }

  // What follows for every run from an empty database.

  /** A state some interleaving of any tills reaches. */
  ghost predicate Reachable(cal: Calendar, s: State) {
    exists start, events :: Initial(start) && s == Run(cal, start, events)
  }

  lemma ReachableKeeps(cal: Calendar, s: State)
    requires Coherent(cal) && Reachable(cal, s)
    ensures Inv(cal, s)
  {
    hide TotalsOf, DayFigures, Settled, TxOk;
    var start, events :| Initial(start) && s == Run(cal, start, events);
    RunKeeps(cal, start, events);
  }

  ghost predicate Grew(before: Database, after: Database) {
    before.zs <= after.zs && before.sales <= after.sales && before.refunds <= after.refunds
  }

  lemma NextOnlyAdds(cal: Calendar, s: State, e: Event)
    ensures Grew(s.db, Next(cal, s, e).db)
  {
    hide TotalsOf, Settled, Filter, Without, Figures, Closed, Pending, WarehouseOf, HighestNumber, HighestZ, IsCompleted;
    if e.Step? && e.tx in s.txs {
      var tx := s.txs[e.tx];
      if tx.request.Checkout? {
        assert Grew(s.db, StepCheckout(cal, s, e.tx, tx).db);
      } else if tx.request.Return? {
        assert Grew(s.db, StepReturn(cal, s, e.tx, tx).db);
      } else {
        assert Grew(s.db, StepClose(cal, s, e.tx, tx).db);
      }
    }
  }

  lemma {:induction false} CommittedStays(cal: Calendar, s: State, events: seq<Event>)
    ensures Grew(s.db, Run(cal, s, events).db)
  {
    hide Next;
    if events != [] {
      CommittedStays(cal, s, events[..|events| - 1]);
      NextOnlyAdds(cal, Run(cal, s, events[..|events| - 1]), events[|events| - 1]);
    }
  }

  /** Once a Z exists it is never altered, and recomputing its whole day at any later time gives its very figures. */
  lemma FinalZsNeverChange(cal: Calendar, s: State, later: seq<Event>)
    requires Coherent(cal) && Reachable(cal, s)
    ensures var after := Run(cal, s, later);
            && s.db.zs <= after.db.zs
            && forall z :: z in s.db.zs ==> z.totals == DayFigures(cal, after.db, z.warehouse, z.day)
  {
    hide TotalsOf, DayFigures, Settled, TxOk, Run;
    ReachableKeeps(cal, s);
    RunKeeps(cal, s, later);
    CommittedStays(cal, s, later);
    var after := Run(cal, s, later);
    forall z | z in s.db.zs ensures z in after.db.zs {
      var i :| 0 <= i < |s.db.zs| && s.db.zs[i] == z;
      assert after.db.zs[i] == z;
    }
  }

  lemma {:induction false} OneZADay(cal: Calendar, zs: seq<Z>, clock: int, i: nat, j: nat)
    requires ZsInOrder(cal, zs, clock) && i < j < |zs| && zs[i].warehouse == zs[j].warehouse
    ensures zs[i].day < zs[j].day && zs[i].number < zs[j].number
  {
    var last := |zs| - 1;
    if j < last {
      OneZADay(cal, zs[..last], clock, i, j);
    } else {
      var w, front := zs[j].warehouse, zs[..last];
      assert front[i] in front;
      FilterHas(front, i, w);
      NumberIsPlace(cal, front, clock, i);
      FilterGrows(front, i + 1, w);
    }
  }

  lemma FilterHas(zs: seq<Z>, i: nat, w: int)
    requires i < |zs| && zs[i].warehouse == w
    ensures |Filter(zs[..i + 1], ZFor(w))| == |Filter(zs[..i], ZFor(w))| + 1
  {
    assert zs[..i + 1] == zs[..i] + [zs[i]];
    FilterAppend(zs[..i], zs[i], ZFor(w));
  }

  lemma {:induction false} FilterGrows(zs: seq<Z>, n: nat, w: int)
    requires n <= |zs|
    ensures |Filter(zs[..n], ZFor(w))| <= |Filter(zs, ZFor(w))|
  {
    if n < |zs| {
      FilterGrows(zs[..|zs| - 1], n, w);
      assert zs[..|zs| - 1][..n] == zs[..n];
    } else {
      assert zs[..n] == zs;
    }
  }

  /** A Z is numbered by its place among the Zs of its warehouse. */
  lemma {:induction false} NumberIsPlace(cal: Calendar, zs: seq<Z>, clock: int, i: nat)
    requires ZsInOrder(cal, zs, clock) && i < |zs|
    ensures zs[i].number == |Filter(zs[..i + 1], ZFor(zs[i].warehouse))|
  {
    var last := |zs| - 1;
    if i < last {
      NumberIsPlace(cal, zs[..last], clock, i);
      assert zs[..last][..i + 1] == zs[..i + 1];
    } else {
      FilterHas(zs, i, zs[i].warehouse);
      assert zs[..i] == zs[..last];
    }
  }

  /** No completed sale is covered by two Zs. */
  lemma SaleFallsInOneZ(cal: Calendar, s: State, c: Completed, i: nat, j: nat)
    requires Coherent(cal) && Reachable(cal, s)
    requires i < |s.db.zs| && j < |s.db.zs|
    requires SaleOn(cal, s.db.zs[i].warehouse, s.db.zs[i].day)(c) && SaleOn(cal, s.db.zs[j].warehouse, s.db.zs[j].day)(c)
    ensures i == j
  {
    hide TotalsOf, DayFigures, Settled, TxOk, Run;
    ReachableKeeps(cal, s);
    if i < j { OneZADay(cal, s.db.zs, s.clock, i, j); }
    if j < i { OneZADay(cal, s.db.zs, s.clock, j, i); }
  }

  /** The Zs of one warehouse, in the order they were issued, are numbered without gaps and follow the calendar. */
  lemma ZNumbersAreConsecutive(cal: Calendar, s: State, i: nat)
    requires Coherent(cal) && Reachable(cal, s) && i < |s.db.zs|
    ensures s.db.zs[i].number == |Filter(s.db.zs[..i + 1], ZFor(s.db.zs[i].warehouse))|
    ensures forall j :: i < j < |s.db.zs| && s.db.zs[j].warehouse == s.db.zs[i].warehouse ==>
              s.db.zs[i].day < s.db.zs[j].day && s.db.zs[i].number < s.db.zs[j].number
  {
    hide TotalsOf, DayFigures, Settled, TxOk, Run;
    ReachableKeeps(cal, s);
    NumberIsPlace(cal, s.db.zs, s.clock, i);
    forall j | i < j < |s.db.zs| && s.db.zs[j].warehouse == s.db.zs[i].warehouse
      ensures s.db.zs[i].day < s.db.zs[j].day && s.db.zs[i].number < s.db.zs[j].number
    {
      OneZADay(cal, s.db.zs, s.clock, i, j);
    }
  }

  /** Ticket numbers are 1, 2, 3 and so on in the order the sales were committed, one per sale, and within a
      warehouse they follow the time of charging. */
  lemma TicketNumbersAreGapless(cal: Calendar, s: State)
    requires Coherent(cal) && Reachable(cal, s)
    ensures forall i :: 0 <= i < |s.db.sales| ==> s.db.sales[i].sale.number == i + 1
    ensures forall i, j :: 0 <= i < j < |s.db.sales| ==> s.db.sales[i].sale.id != s.db.sales[j].sale.id
    ensures forall c, d :: c in s.db.sales && d in s.db.sales && c.warehouse == d.warehouse ==>
              (c.sale.number < d.sale.number ==> c.at <= d.at)
  {
    hide TotalsOf, DayFigures, Settled, TxOk, Run, ZsInOrder;
    ReachableKeeps(cal, s);
  }

  lemma {:induction false} SelectedAreSettled(rows: seq<Completed>, p: Completed -> bool)
    requires forall c :: c in rows ==> Settled(c.sale)
    ensures forall x :: x in Contents(Filter(rows, p)) ==> Settled(x)
  {
    hide Settled;
    if rows != [] {
      var last := |rows| - 1;
      SelectedAreSettled(rows[..last], p);
      assert rows[last] in rows;
      var f := Filter(rows[..last], p);
      assert (f + [rows[last]])[..|f|] == f;
      assert Contents(f + [rows[last]]) == Contents(f) + [rows[last].sale];
      assert Filter(rows, p) == if p(rows[last]) then f + [rows[last]] else f;
      forall x | x in Contents(Filter(rows, p)) ensures Settled(x) {
        assert x in Contents(f) || x == rows[last].sale;
      }
    }
  }

  /** Every Z ever issued balances: cash, card and other add up to its gross total, none of them negative. */
  lemma EveryZBalances(cal: Calendar, s: State, z: Z)
    requires Coherent(cal) && Reachable(cal, s) && z in s.db.zs
    ensures z.totals.collected.Keys == METHODS
    ensures z.totals.collected[Cash] + z.totals.collected[Card] + z.totals.collected[Other] == z.totals.gross
    ensures 0 <= z.totals.collected[Cash] && 0 <= z.totals.collected[Card] && 0 <= z.totals.collected[Other]
  {
    hide Settled, TxOk, Run, ZsInOrder, Charged, CollectedBy;
    ReachableKeeps(cal, s);
    assert forall c :: c in s.db.sales ==> Settled(c.sale);
    SelectedAreSettled(s.db.sales, SaleOn(cal, z.warehouse, z.day));
    CollectedIsGross(Contents(Filter(s.db.sales, SaleOn(cal, z.warehouse, z.day))));
  }
}
