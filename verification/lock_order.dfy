/** The global order in which transactions take their locks, and why they never wait in a circle. */
module LockOrder {
  import opened Money
  import opened Sums
  import Sorting

  /** `number` stands for the place of a lot number in the string order; `row` for a balance row's primary key. */
  datatype Lock =
    | Key(id: int)
    | Cut(warehouse: int)
    | SaleRow(sale: int)
    | Terminal(terminal: int)
    | LotName(product: int, number: int)
    | BalanceRow(product: int, row: int)
    | SaleNumber

  function Class(l: Lock): int {
    match l
    case Key(_) => 0
    case Cut(_) => 1
    case SaleRow(_) => 2
    case Terminal(_) => 3
    case LotName(_, _) => 4
    case BalanceRow(_, _) => 5
    case SaleNumber => 6
  }

  function Major(l: Lock): int {
    match l
    case Key(id) => id
    case Cut(w) => w
    case SaleRow(s) => s
    case Terminal(t) => t
    case LotName(p, _) => p
    case BalanceRow(p, _) => p
    case SaleNumber => 0
  }

  function Minor(l: Lock): int {
    match l
    case LotName(_, n) => n
    case BalanceRow(_, r) => r
    case _ => 0
  }

  /** The documented order: key, cut, sale, terminal, lots, balance rows by product and row, sale number. */
  predicate Below(a: Lock, b: Lock) {
    Class(a) < Class(b)
    || (Class(a) == Class(b) && (Major(a) < Major(b) || (Major(a) == Major(b) && Minor(a) < Minor(b))))
  }

  /** A transaction's locks, in order; asking again for one it already holds never waits. */
  ghost predicate Ascending(plan: seq<Lock>) {
    forall j :: 0 <= j < |plan| ==> plan[j] in plan[..j] || forall l :: l in plan[..j] ==> Below(l, plan[j])
  }

  datatype Tx = Tx(plan: seq<Lock>, taken: nat, done: bool)

  datatype State = State(txs: seq<Tx>, owner: map<Lock, nat>)

  datatype Event = Begin(plan: seq<Lock>) | Acquire(tx: nat) | Commit(tx: nat) | Abort(tx: nat)

  predicate Running(s: State, t: nat) {
    t < |s.txs| && !s.txs[t].done
  }

  /** A transaction can move: its next lock is free or its own, or it has them all and can commit. */
  predicate CanStep(s: State, t: nat) {
    Running(s, t) && s.txs[t].taken <= |s.txs[t].plan|
    && (s.txs[t].taken == |s.txs[t].plan|
        || s.txs[t].plan[s.txs[t].taken] !in s.owner
        || s.owner[s.txs[t].plan[s.txs[t].taken]] == t)
  }

  function Released(owner: map<Lock, nat>, t: nat): map<Lock, nat> {
    map l | l in owner && owner[l] != t :: owner[l]
  }

  ghost function Next(s: State, e: Event): State {
    match e
    case Begin(plan) => if Ascending(plan) then s.(txs := s.txs + [Tx(plan, 0, false)]) else s
    case Acquire(t) =>
      if CanStep(s, t) && s.txs[t].taken < |s.txs[t].plan| then
        State(s.txs[t := s.txs[t].(taken := s.txs[t].taken + 1)], s.owner[s.txs[t].plan[s.txs[t].taken] := t])
      else s
    case Commit(t) =>
      if CanStep(s, t) && s.txs[t].taken == |s.txs[t].plan| then
        State(s.txs[t := s.txs[t].(done := true)], Released(s.owner, t))
      else s
    case Abort(t) =>
      if Running(s, t) then State(s.txs[t := s.txs[t].(done := true)], Released(s.owner, t)) else s
  }

  ghost function Run(s: State, events: seq<Event>): State {
    if events == [] then s else Next(Run(s, events[..|events| - 1]), events[|events| - 1])
  }

  ghost function Held(s: State, t: nat): seq<Lock> {
    if Running(s, t) && s.txs[t].taken <= |s.txs[t].plan| then s.txs[t].plan[..s.txs[t].taken] else []
  }

  /** Locks are held by exactly the running transactions that have taken them. */
  ghost predicate Inv(s: State) {
    && (forall t: nat :: t < |s.txs| ==> Ascending(s.txs[t].plan) && s.txs[t].taken <= |s.txs[t].plan|)
    && HeldByOwner(s)
  }

  lemma HeldAfterAcquire(s: State, t: nat, u: nat)
    requires Inv(s) && CanStep(s, t) && s.txs[t].taken < |s.txs[t].plan|
    ensures Held(Next(s, Acquire(t)), u) == if u == t then Held(s, t) + [s.txs[t].plan[s.txs[t].taken]] else Held(s, u)
  {
    hide Ascending, Below;
    var plan, n := s.txs[t].plan, s.txs[t].taken;
    assert plan[..n + 1] == plan[..n] + [plan[n]];
  }

  /** Locks are held by exactly those who own them. */
  ghost predicate HeldByOwner(s: State) {
    && (forall l :: l in s.owner ==> l in Held(s, s.owner[l]))
    && (forall t: nat, l :: l in Held(s, t) ==> l in s.owner && s.owner[l] == t)
  }

  lemma TakenIsHeld(s: State, after: State, t: nat, taken: Lock)
    requires HeldByOwner(s) && after.owner == s.owner[taken := t] && (taken in s.owner ==> s.owner[taken] == t)
    requires forall u: nat :: Held(after, u) == if u == t then Held(s, t) + [taken] else Held(s, u)
    ensures HeldByOwner(after)
  {
    hide Held;
    forall l | l in after.owner ensures l in Held(after, after.owner[l]) {
      if l != taken { assert l in Held(s, s.owner[l]); }
    }
    forall u: nat, l | l in Held(after, u) ensures l in after.owner && after.owner[l] == u {
      if u != t { assert l in Held(s, u); } else { assert l == taken || l in Held(s, t); }
    }
  }

  lemma AcquireKeeps(s: State, t: nat)
    requires Inv(s) && CanStep(s, t) && s.txs[t].taken < |s.txs[t].plan|
    ensures Inv(Next(s, Acquire(t)))
  {
    hide Ascending, Below, Held;
    var after, taken := Next(s, Acquire(t)), s.txs[t].plan[s.txs[t].taken];
    forall u: nat ensures Held(after, u) == if u == t then Held(s, t) + [taken] else Held(s, u) {
      HeldAfterAcquire(s, t, u);
    }
    TakenIsHeld(s, after, t, taken);
  }

  lemma FinishKeeps(s: State, t: nat)
    requires Inv(s) && Running(s, t)
    ensures Inv(State(s.txs[t := s.txs[t].(done := true)], Released(s.owner, t)))
  {
    hide Ascending, Below;
    var after := State(s.txs[t := s.txs[t].(done := true)], Released(s.owner, t));
    forall u: nat | u != t ensures Held(after, u) == Held(s, u) {}
  }

  lemma NextKeeps(s: State, e: Event)
    requires Inv(s)
    ensures Inv(Next(s, e))
  {
    hide Ascending, Below, Inv;
    match e
    case Begin(plan) =>
      if Ascending(plan) { BeginKeeps(s, plan); }
    case Acquire(t) =>
      if CanStep(s, t) && s.txs[t].taken < |s.txs[t].plan| { AcquireKeeps(s, t); }
    case Commit(t) =>
      if Running(s, t) { FinishKeeps(s, t); }
    case Abort(t) =>
      if Running(s, t) { FinishKeeps(s, t); }
  }

  lemma BeginKeeps(s: State, plan: seq<Lock>)
    requires Inv(s) && Ascending(plan)
    ensures Inv(s.(txs := s.txs + [Tx(plan, 0, false)]))
  {
    hide Ascending, Below;
    var after := s.(txs := s.txs + [Tx(plan, 0, false)]);
    forall u: nat ensures Held(after, u) == Held(s, u) {
      if u < |s.txs| {
        assert after.txs[u] == s.txs[u];
      }
    }
  }

  lemma {:induction false} RunKeeps(s: State, events: seq<Event>)
    requires Inv(s)
    ensures Inv(Run(s, events))
  {
    if events != [] {
      RunKeeps(s, events[..|events| - 1]);
      NextKeeps(Run(s, events[..|events| - 1]), events[|events| - 1]);
    }
  }

  ghost function Above(s: State, l: Lock): set<Lock> {
    set x | x in s.owner.Keys && Below(l, x)
  }

  lemma FewerAbove(s: State, wanted: Lock, next: Lock)
    requires Below(wanted, next) && next in Above(s, wanted)
    ensures |Above(s, next)| < |Above(s, wanted)|
  {
    assert Above(s, next) < Above(s, wanted) by {
      assert next !in Above(s, next);
    }
    ProperSubsetIsSmaller(Above(s, next), Above(s, wanted));
  }

  /** Follow who waits for whom: every hop wants a higher lock, so the chain ends at someone who can move. */
  lemma {:induction false} FollowWaiters(s: State, t: nat) returns (mover: nat)
    requires Inv(s) && Running(s, t)
    ensures CanStep(s, mover)
    decreases if s.txs[t].taken < |s.txs[t].plan| then |Above(s, s.txs[t].plan[s.txs[t].taken])| else 0
  {
    if CanStep(s, t) {
      return t;
    }
    var wanted := s.txs[t].plan[s.txs[t].taken];
    var holder := s.owner[wanted];
    if CanStep(s, holder) {
      return holder;
    }
    var next := s.txs[holder].plan[s.txs[holder].taken];
    assert next !in s.txs[holder].plan[..s.txs[holder].taken];
    assert Below(wanted, next);
    FewerAbove(s, wanted, next);
    mover := FollowWaiters(s, holder);
  }

  /** Deadlock freedom: in every reachable state with an unfinished transaction, one of them can move. */
  lemma NeverDeadlocked(events: seq<Event>)
    ensures var s := Run(State([], map[]), events);
            (exists t: nat :: Running(s, t)) ==> exists t: nat :: CanStep(s, t)
  {
    var s := Run(State([], map[]), events);
    RunKeeps(State([], map[]), events);
    if t: nat :| Running(s, t) {
      var mover := FollowWaiters(s, t);
    }
  }

  /** No lock is ever held by two running transactions. */
  lemma LocksAreExclusive(events: seq<Event>, t: nat, u: nat, l: Lock)
    requires var s := Run(State([], map[]), events); Running(s, t) && Running(s, u) && t != u
    ensures var s := Run(State([], map[]), events);
            && s.txs[t].taken <= |s.txs[t].plan| && s.txs[u].taken <= |s.txs[u].plan|
            && !(l in s.txs[t].plan[..s.txs[t].taken] && l in s.txs[u].plan[..s.txs[u].taken])
  {
    hide Run, Ascending;
    RunKeeps(State([], map[]), events);
    var s := Run(State([], map[]), events);
    assert l in Held(s, t) ==> l in s.owner && s.owner[l] == t;
    assert l in Held(s, u) ==> l in s.owner && s.owner[l] == u;
  }

  /** A transaction that begins has all its locks to take and then to commit. */
  lemma BeginningAddsItsWork(s: State, plan: seq<Lock>)
    requires Ascending(plan)
    ensures Work(Next(s, Begin(plan)).txs) == Work(s.txs) + |plan| + 1
  {
    hide Ascending;
    assert (s.txs + [Tx(plan, 0, false)])[..|s.txs|] == s.txs;
  }

  function Work(txs: seq<Tx>): nat {
    if txs == [] then 0
    else
      var x := txs[|txs| - 1];
      Work(txs[..|txs| - 1]) + (if x.done || x.taken > |x.plan| then 0 else |x.plan| - x.taken + 1)
  }

  lemma {:induction false} WorkShrinks(txs: seq<Tx>, t: nat, x: Tx)
    requires t < |txs| && !txs[t].done && txs[t].taken <= |txs[t].plan| && x.plan == txs[t].plan
    requires (x.done && txs[t].taken == |x.plan|) || (!x.done && x.taken == txs[t].taken + 1 <= |x.plan|)
    ensures Work(txs[t := x]) == Work(txs) - 1
  {
    var last := |txs| - 1;
    if t < last {
      WorkShrinks(txs[..last], t, x);
      assert txs[t := x][..last] == txs[..last][t := x];
    } else {
      assert txs[t := x][..last] == txs[..last];
    }
  }

  lemma {:induction false} NoWorkLeft(txs: seq<Tx>)
    requires forall i :: 0 <= i < |txs| ==> txs[i].done
    ensures Work(txs) == 0
  {
    if txs != [] {
      NoWorkLeft(txs[..|txs| - 1]);
    }
  }

  lemma {:induction false} RunContinues(s: State, first: Event, rest: seq<Event>)
    ensures Run(s, [first] + rest) == Run(Next(s, first), rest)
  {
    hide Next;
    if rest == [] {
      assert Run(s, [first]) == Next(Run(s, []), first);
      assert [first] + rest == [first];
    } else {
      RunContinues(s, first, rest[..|rest| - 1]);
      assert ([first] + rest)[..|rest|] == [first] + rest[..|rest| - 1];
    }
  }

  ghost predicate AllDone(s: State) {
    forall t :: 0 <= t < |s.txs| ==> s.txs[t].done
  }

  lemma OneStepLess(s: State, m: nat) returns (e: Event)
    requires Inv(s) && CanStep(s, m)
    ensures e.Acquire? || e.Commit?
    ensures Inv(Next(s, e)) && Work(Next(s, e).txs) == Work(s.txs) - 1
  {
    hide Ascending, Below, Released;
    e := if s.txs[m].taken < |s.txs[m].plan| then Acquire(m) else Commit(m);
    NextKeeps(s, e);
    WorkShrinks(s.txs, m, Next(s, e).txs[m]);
  }

  /** From any reachable state everyone finishes, without a single rollback, after exactly the work that is left. */
  lemma {:induction false} EveryoneFinishes(s: State) returns (events: seq<Event>)
    requires Inv(s)
    ensures |events| == Work(s.txs)
    ensures forall e :: e in events ==> e.Acquire? || e.Commit?
    ensures AllDone(Run(s, events))
    decreases Work(s.txs)
  {
    hide Inv, Next;
    if t: nat :| Running(s, t) {
      var m := FollowWaiters(s, t);
      var e := OneStepLess(s, m);
      var rest := EveryoneFinishes(Next(s, e));
      events := [e] + rest;
      RunContinues(s, e, rest);
    } else {
      forall i | 0 <= i < |s.txs| ensures s.txs[i].done {
        assert !Running(s, i);
      }
      NoWorkLeft(s.txs);
      events := [];
    }
  }

  /** The order, lock by lock: a strict total one. */
  lemma BelowIsTheDocumentedOrder(k: int, w: int, sale: int, terminal: int, p: int, n: int, q: int, m: int, a: Lock, b: Lock, c: Lock)
    ensures Below(Key(k), Cut(w)) && Below(Cut(w), SaleRow(sale)) && Below(SaleRow(sale), Terminal(terminal))
    ensures Below(Terminal(terminal), LotName(p, n)) && Below(LotName(p, n), BalanceRow(q, m)) && Below(BalanceRow(p, n), SaleNumber)
    ensures Below(LotName(p, n), LotName(q, m)) <==> p < q || (p == q && n < m)
    ensures Below(BalanceRow(p, n), BalanceRow(q, m)) <==> p < q || (p == q && n < m)
    ensures !Below(a, a) && (Below(a, b) && Below(b, c) ==> Below(a, c)) && (a != b ==> Below(a, b) || Below(b, a))
  {
    if Class(a) == Class(b) && Major(a) == Major(b) && Minor(a) == Minor(b) { OneLockEach(a, b); }
  }

  lemma OneLockEach(a: Lock, b: Lock)
    requires Class(a) == Class(b) && Major(a) == Major(b) && Minor(a) == Minor(b)
    ensures a == b
  {}

  // The plans the operations really follow.

  /** A sale line that moves stock; `touched` are the rows its allocation writes, in whatever order it visits them. */
  datatype StockLine = StockLine(product: int, line: int, touched: seq<int>)

  /** The balance rows of every product at the location, by primary key. */
  type RowTable = int -> seq<int>

  ghost predicate ByPrimaryKey(rows: RowTable) {
    forall p, i, j :: 0 <= i < j < |rows(p)| ==> rows(p)[i] < rows(p)[j]
  }

  ghost predicate TouchesOwnRows(rows: RowTable, l: StockLine) {
    forall r :: r in l.touched ==> r in rows(l.product)
  }

  function RowLocks(product: int, rows: seq<int>): (locks: seq<Lock>)
    ensures |locks| == |rows|
    ensures forall i :: 0 <= i < |rows| ==> locks[i] == BalanceRow(product, rows[i])
  {
    seq(|rows|, i requires 0 <= i < |rows| => BalanceRow(product, rows[i]))
  }

  /** All rows of the line's product first, by primary key; then the rows the line writes. */
  function StockLocks(lines: seq<StockLine>, rows: RowTable): seq<Lock> {
    if lines == [] then []
    else
      var l := lines[|lines| - 1];
      StockLocks(lines[..|lines| - 1], rows) + RowLocks(l.product, rows(l.product)) + RowLocks(l.product, l.touched)
  }

  predicate LineOrder(a: StockLine, b: StockLine) {
    a.product < b.product || (a.product == b.product && a.line <= b.line)
  }

  predicate LotOrder(a: (int, int), b: (int, int)) {
    a.0 < b.0 || (a.0 == b.0 && a.1 <= b.1)
  }

  function LotLocks(lots: seq<(int, int)>): (locks: seq<Lock>)
    ensures |locks| == |lots|
    ensures forall i :: 0 <= i < |lots| ==> locks[i] == LotName(lots[i].0, lots[i].1)
  {
    seq(|lots|, i requires 0 <= i < |lots| => LotName(lots[i].0, lots[i].1))
  }

  function KeyLock(key: Option<int>): seq<Lock> { if key.Some? then [Key(key.value)] else [] }

  function TerminalLock(terminal: Option<int>): seq<Lock> { if terminal.Some? then [Terminal(terminal.value)] else [] }

  function CheckoutPlan(key: Option<int>, warehouse: int, sale: int, terminal: Option<int>, lines: seq<StockLine>,
                        rows: RowTable): seq<Lock> {
    KeyLock(key) + [Cut(warehouse), SaleRow(sale)] + TerminalLock(terminal)
    + StockLocks(Sorting.Sort(lines, LineOrder), rows) + [SaleNumber]
  }

  /** Lots by product and number, then the rows of the restocked products, then the rows written line by line. */
  function ReturnPlan(key: Option<int>, warehouse: int, sale: int, lots: seq<(int, int)>, products: seq<StockLine>,
                      rows: RowTable, written: seq<Lock>): seq<Lock> {
    KeyLock(key) + [Cut(warehouse), SaleRow(sale)] + LotLocks(Sorting.Sort(lots, LotOrder))
    + StockLocks(Sorting.Sort(products, LineOrder), rows) + written
  }

  function FefoPlan(key: Option<int>, line: StockLine, rows: RowTable): seq<Lock> {
    KeyLock(key) + StockLocks([line], rows)
  }

  function ClosePlan(key: Option<int>, warehouse: int): seq<Lock> {
    KeyLock(key) + [Cut(warehouse)]
  }

  lemma Extend(plan: seq<Lock>, more: seq<Lock>)
    requires Ascending(plan)
    requires forall j :: 0 <= j < |more| ==>
               more[j] in plan || more[j] in more[..j] || forall l :: l in plan + more[..j] ==> Below(l, more[j])
    ensures Ascending(plan + more)
  {
    hide Below;
    var whole := plan + more;
    forall j | 0 <= j < |whole|
      ensures whole[j] in whole[..j] || forall l :: l in whole[..j] ==> Below(l, whole[j])
    {
      if j < |plan| {
        assert whole[..j] == plan[..j];
      } else {
        assert whole[..j] == plan + more[..j - |plan|];
      }
    }
  }

  ghost predicate Classes(plan: seq<Lock>, low: int, high: int) {
    forall l :: l in plan ==> low <= Class(l) <= high
  }

  /** Locks of strictly higher classes can always follow. */
  lemma ExtendByClass(plan: seq<Lock>, more: seq<Lock>, low: int, mid: int, high: int)
    requires Ascending(plan) && Ascending(more)
    requires Classes(plan, low, mid) && Classes(more, mid + 1, high) && low <= mid <= high
    ensures Ascending(plan + more) && Classes(plan + more, low, high)
  {
    forall j | 0 <= j < |more|
      ensures more[j] in plan || more[j] in more[..j] || forall l :: l in plan + more[..j] ==> Below(l, more[j])
    {
      assert more[j] in more;
    }
    hide Below, Class;
    Extend(plan, more);
  }

  /** A plan over the balance rows of some lines: only their products' rows, and all of them. */
  ghost predicate Covers(plan: seq<Lock>, lines: seq<StockLine>, rows: RowTable) {
    && (forall x :: x in plan ==> x.BalanceRow? && exists l :: l in lines && l.product == x.product)
    && (forall l :: l in lines ==> HoldsRows(plan, l.product, rows(l.product)))
  }

  ghost predicate HoldsRows(plan: seq<Lock>, product: int, rows: seq<int>) {
    forall r :: r in rows ==> BalanceRow(product, r) in plan
  }

  lemma RowsAscend(rows: RowTable, plan: seq<Lock>, product: int)
    requires ByPrimaryKey(rows) && Ascending(plan)
    requires forall l :: l in plan ==> l.BalanceRow? && l.product <= product
    requires HoldsRows(plan, product, rows(product)) || forall l :: l in plan ==> l.product < product
    ensures Ascending(plan + RowLocks(product, rows(product)))
  {
    var more := RowLocks(product, rows(product));
    forall j | 0 <= j < |more|
      ensures more[j] in plan || more[j] in more[..j] || forall l :: l in plan + more[..j] ==> Below(l, more[j])
    {
      assert rows(product)[j] in rows(product);
    }
    Extend(plan, more);
  }

  lemma LocksItsRows(plan: seq<Lock>, product: int, rows: seq<int>)
    ensures HoldsRows(plan + RowLocks(product, rows), product, rows)
  {
    forall r | r in rows ensures BalanceRow(product, r) in plan + RowLocks(product, rows) {
      var i :| 0 <= i < |rows| && rows[i] == r;
      assert RowLocks(product, rows)[i] == BalanceRow(product, r);
    }
  }

  lemma TouchedAscend(plan: seq<Lock>, rows: RowTable, l: StockLine)
    requires Ascending(plan) && HoldsRows(plan, l.product, rows(l.product)) && TouchesOwnRows(rows, l)
    ensures Ascending(plan + RowLocks(l.product, l.touched))
  {
    hide Below;
    var touched := RowLocks(l.product, l.touched);
    forall j | 0 <= j < |touched| ensures touched[j] in plan {
      assert l.touched[j] in l.touched;
    }
    Extend(plan, touched);
  }

  lemma {:induction false} StockLocksCover(lines: seq<StockLine>, rows: RowTable)
    ensures Covers(StockLocks(lines, rows), lines, rows)
  {
    if lines != [] {
      var front, l := lines[..|lines| - 1], lines[|lines| - 1];
      StockLocksCover(front, rows);
      assert lines == front + [l];
      LocksItsRows(StockLocks(front, rows), l.product, rows(l.product));
    }
  }

  /** The stock part of a plan ascends when its lines are sorted by product. */
  lemma {:induction false} StockLocksAscend(lines: seq<StockLine>, rows: RowTable)
    requires ByPrimaryKey(rows) && Sorting.SortedBy(lines, LineOrder)
    requires forall l :: l in lines ==> TouchesOwnRows(rows, l)
    ensures Ascending(StockLocks(lines, rows))
  {
    if lines != [] {
      var front, l := lines[..|lines| - 1], lines[|lines| - 1];
      StockLocksAscend(front, rows);
      StockLocksCover(front, rows);
      var before := StockLocks(front, rows);
      SortedProducts(lines, rows, before);
      RowsAscend(rows, before, l.product);
      LocksItsRows(before, l.product, rows(l.product));
      assert l in lines;
      hide Ascending, HoldsRows, TouchesOwnRows;
      TouchedAscend(before + RowLocks(l.product, rows(l.product)), rows, l);
    }
  }

  lemma SortedProducts(lines: seq<StockLine>, rows: RowTable, before: seq<Lock>)
    requires lines != [] && Sorting.SortedBy(lines, LineOrder) && Covers(before, lines[..|lines| - 1], rows)
    ensures var p := lines[|lines| - 1].product;
            && (forall l :: l in before ==> l.BalanceRow? && l.product <= p)
            && (HoldsRows(before, p, rows(p)) || forall l :: l in before ==> l.product < p)
  {
    hide HoldsRows;
    var front, l := lines[..|lines| - 1], lines[|lines| - 1];
    forall x | x in front ensures x.product <= l.product {
      var i :| 0 <= i < |front| && front[i] == x;
      assert LineOrder(lines[i], lines[|lines| - 1]);
    }
  }

  lemma SortedLines(lines: seq<StockLine>, rows: RowTable)
    requires ByPrimaryKey(rows) && forall l :: l in lines ==> TouchesOwnRows(rows, l)
    ensures Ascending(StockLocks(Sorting.Sort(lines, LineOrder), rows))
    ensures Classes(StockLocks(Sorting.Sort(lines, LineOrder), rows), 5, 5)
  {
    hide Ascending, TouchesOwnRows, StockLocks;
    Sorting.SortIsSorted(lines, LineOrder);
    Sorting.SameElements(lines, LineOrder);
    StockLocksAscend(Sorting.Sort(lines, LineOrder), rows);
    StockLocksCover(Sorting.Sort(lines, LineOrder), rows);
  }

  lemma HeadAscends(key: Option<int>, warehouse: int, sale: int, terminal: Option<int>)
    ensures var head := KeyLock(key) + [Cut(warehouse), SaleRow(sale)] + TerminalLock(terminal);
            Ascending(head) && Classes(head, 0, 3)
  {}

  lemma CheckoutAscends(key: Option<int>, warehouse: int, sale: int, terminal: Option<int>, lines: seq<StockLine>, rows: RowTable)
    requires ByPrimaryKey(rows) && forall l :: l in lines ==> TouchesOwnRows(rows, l)
    ensures Ascending(CheckoutPlan(key, warehouse, sale, terminal, lines, rows))
  {
    var head := KeyLock(key) + [Cut(warehouse), SaleRow(sale)] + TerminalLock(terminal);
    assert Ascending([SaleNumber]) && Classes([SaleNumber], 6, 6);
    HeadAscends(key, warehouse, sale, terminal);
    hide Ascending, TouchesOwnRows, StockLocks, ByPrimaryKey;
    SortedLines(lines, rows);
    var stock := StockLocks(Sorting.Sort(lines, LineOrder), rows);
    assert Classes(stock, 4, 5);
    ExtendByClass(head, stock, 0, 3, 5);
    ExtendByClass(head + stock, [SaleNumber], 0, 5, 6);
  }

  lemma LotNameBelow(a: (int, int), b: (int, int))
    requires LotOrder(a, b) && a != b
    ensures Below(LotName(a.0, a.1), LotName(b.0, b.1))
  {
    assert a.0 != b.0 || a.1 != b.1;
  }

  lemma LotsAscend(lots: seq<(int, int)>)
    ensures Ascending(LotLocks(Sorting.Sort(lots, LotOrder))) && Classes(LotLocks(Sorting.Sort(lots, LotOrder)), 4, 4)
  {
    var sorted := Sorting.Sort(lots, LotOrder);
    Sorting.SortIsSorted(lots, LotOrder);
    var named := LotLocks(sorted);
    assert Classes(named, 4, 4);
    hide Below, Class, LotOrder, Sorting.Sort;
    forall j | 0 <= j < |named| && named[j] !in named[..j] ensures forall l :: l in named[..j] ==> Below(l, named[j]) {
      forall l | l in named[..j] ensures Below(l, named[j]) {
        var i :| 0 <= i < j && named[i] == l;
        assert LotOrder(sorted[i], sorted[j]);
        LotNameBelow(sorted[i], sorted[j]);
      }
    }
  }

  lemma ReturnAscends(key: Option<int>, warehouse: int, sale: int, lots: seq<(int, int)>, products: seq<StockLine>,
                      rows: RowTable, written: seq<Lock>)
    requires ByPrimaryKey(rows) && forall l :: l in products ==> TouchesOwnRows(rows, l)
    requires forall x :: x in written ==> x in StockLocks(Sorting.Sort(products, LineOrder), rows)
    ensures Ascending(ReturnPlan(key, warehouse, sale, lots, products, rows, written))
  {
    var head := KeyLock(key) + [Cut(warehouse), SaleRow(sale)];
    HeadAscends(key, warehouse, sale, None);
    assert head == head + TerminalLock(None);
    hide Ascending, TouchesOwnRows, StockLocks, ByPrimaryKey, LotLocks;
    SortedLines(products, rows);
    LotsAscend(lots);
    var named := LotLocks(Sorting.Sort(lots, LotOrder));
    var stock := StockLocks(Sorting.Sort(products, LineOrder), rows);
    ExtendByClass(head, named, 0, 3, 4);
    ExtendByClass(head + named, stock, 0, 4, 5);
    forall j | 0 <= j < |written| ensures written[j] in head + named + stock {
      assert written[j] in written;
    }
    Extend(head + named + stock, written);
  }

  lemma StockOfOneLine(line: StockLine, rows: RowTable)
    requires ByPrimaryKey(rows) && TouchesOwnRows(rows, line)
    ensures Ascending(StockLocks([line], rows)) && Classes(StockLocks([line], rows), 1, 5)
  {
    StockLocksAscend([line], rows);
    StockLocksCover([line], rows);
  }

  lemma FefoAndCloseAscend(key: Option<int>, line: StockLine, rows: RowTable, warehouse: int)
    requires ByPrimaryKey(rows) && TouchesOwnRows(rows, line)
    ensures Ascending(FefoPlan(key, line, rows)) && Ascending(ClosePlan(key, warehouse))
  {
    assert Ascending(KeyLock(key)) && Classes(KeyLock(key), 0, 0);
    assert Ascending(ClosePlan(key, warehouse));
    hide Ascending, TouchesOwnRows, ByPrimaryKey, StockLocks, Classes;
    StockOfOneLine(line, rows);
    ExtendByClass(KeyLock(key), StockLocks([line], rows), 0, 0, 5);
  }

  // What is in the plans: no lock is left out, and none is taken for nothing.

  /** A balance row of one of the lines' products. */
  ghost predicate RowOf(l: Lock, lines: seq<StockLine>, rows: RowTable) {
    l.BalanceRow? && l.row in rows(l.product) && exists x :: x in lines && x.product == l.product
  }

  lemma RowLocksHold(product: int, rows: seq<int>, l: Lock)
    ensures l in RowLocks(product, rows) <==> l.BalanceRow? && l.product == product && l.row in rows
  {
    var locks := RowLocks(product, rows);
    if l.BalanceRow? && l.product == product && l.row in rows {
      var i :| 0 <= i < |rows| && rows[i] == l.row;
      assert locks[i] == l;
    }
  }

  lemma {:induction false} StockLocksHold(lines: seq<StockLine>, rows: RowTable, l: Lock)
    requires forall x :: x in lines ==> TouchesOwnRows(rows, x)
    ensures l in StockLocks(lines, rows) <==> RowOf(l, lines, rows)
  {
    if lines != [] {
      var front, x := lines[..|lines| - 1], lines[|lines| - 1];
      StockLocksHold(front, rows, l);
      RowLocksHold(x.product, rows(x.product), l);
      RowLocksHold(x.product, x.touched, l);
      assert lines == front + [x];
      assert x in lines;
    }
  }

  lemma SortedLocksHold(lines: seq<StockLine>, rows: RowTable, l: Lock)
    requires forall x :: x in lines ==> TouchesOwnRows(rows, x)
    ensures l in StockLocks(Sorting.Sort(lines, LineOrder), rows) <==> RowOf(l, lines, rows)
  {
    hide StockLocks, TouchesOwnRows;
    Sorting.SameElements(lines, LineOrder);
    StockLocksHold(Sorting.Sort(lines, LineOrder), rows, l);
  }

  ghost predicate IsKey(l: Lock, key: Option<int>) { l.Key? && key == Some(l.id) }

  /** A checkout locks its key, its warehouse's cut, its sale, its terminal, every balance row of every product it takes
      stock of, and the sale number. */
  lemma CheckoutLocks(key: Option<int>, warehouse: int, sale: int, terminal: Option<int>, lines: seq<StockLine>, rows: RowTable,
                      l: Lock)
    requires forall x :: x in lines ==> TouchesOwnRows(rows, x)
    ensures l in CheckoutPlan(key, warehouse, sale, terminal, lines, rows) <==>
              || IsKey(l, key) || l == Cut(warehouse) || l == SaleRow(sale) || (l.Terminal? && terminal == Some(l.terminal))
              || RowOf(l, lines, rows) || l == SaleNumber
  {
    hide StockLocks, RowOf, TouchesOwnRows, Sorting.Sort;
    SortedLocksHold(lines, rows, l);
  }

  lemma LotLocksHold(lots: seq<(int, int)>, l: Lock)
    ensures l in LotLocks(Sorting.Sort(lots, LotOrder)) <==> l.LotName? && (l.product, l.number) in lots
  {
    hide Sorting.Sort;
    var sorted := Sorting.Sort(lots, LotOrder);
    Sorting.SameElements(lots, LotOrder);
    if l.LotName? && (l.product, l.number) in sorted {
      var i :| 0 <= i < |sorted| && sorted[i] == (l.product, l.number);
      assert LotLocks(sorted)[i] == l;
    }
    if l in LotLocks(sorted) {
      var i :| 0 <= i < |sorted| && LotLocks(sorted)[i] == l;
      assert sorted[i] in sorted;
    }
  }

  /** A return locks its key, the cut, the sale, the lots it names and every balance row of every product it restocks. */
  lemma ReturnLocks(key: Option<int>, warehouse: int, sale: int, lots: seq<(int, int)>, products: seq<StockLine>,
                    rows: RowTable, written: seq<Lock>, l: Lock)
    requires forall x :: x in products ==> TouchesOwnRows(rows, x)
    requires forall x :: x in written ==> x in StockLocks(Sorting.Sort(products, LineOrder), rows)
    ensures l in ReturnPlan(key, warehouse, sale, lots, products, rows, written) <==>
              || IsKey(l, key) || l == Cut(warehouse) || l == SaleRow(sale)
              || (l.LotName? && (l.product, l.number) in lots) || RowOf(l, products, rows)
  {
    hide StockLocks, RowOf, TouchesOwnRows, LotLocks, Sorting.Sort;
    SortedLocksHold(products, rows, l);
    LotLocksHold(lots, l);
  }

  /** A manual FEFO withdrawal locks its key and its product's rows; a Z close its key and the cut. */
  lemma FefoAndCloseLocks(key: Option<int>, line: StockLine, rows: RowTable, warehouse: int, l: Lock)
    requires TouchesOwnRows(rows, line)
    ensures l in FefoPlan(key, line, rows) <==>
              IsKey(l, key) || (l.BalanceRow? && l.product == line.product && l.row in rows(l.product))
    ensures l in ClosePlan(key, warehouse) <==> IsKey(l, key) || l == Cut(warehouse)
  {
    hide StockLocks, TouchesOwnRows;
    StockLocksHold([line], rows, l);
    assert line in [line];
  }
}
