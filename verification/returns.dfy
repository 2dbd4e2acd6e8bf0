/** Economic refunds and physical returns against one completed sale. */
module Returns {
  import opened Money
  import opened SaleLines
  import opened Sums
  import Sorting

  datatype LineRequest = LineRequest(saleLine: int, refundPackages: Decimal, stockPackages: Decimal, lot: Option<int>)

  /** The request schema: no negative quantity, and at least one effect per line. */
  ghost predicate WellFormed(request: LineRequest) {
    0.0 <= request.refundPackages && 0.0 <= request.stockPackages
    && (0.0 < request.refundPackages || 0.0 < request.stockPackages)
  }

  datatype ReturnLine = ReturnLine(saleLine: int, refundBase: Decimal, stockBase: Decimal, amount: Micro, lot: Option<int>)

  /** A ledger entry that puts merchandise of a sale line back. */
  datatype Restock = Restock(saleLine: int, quantity: Decimal, lot: Option<int>)

  /** `conflict` tells a capacity already used up from a request no sale of this size could satisfy. */
  datatype ReturnError =
    | UnknownLine(saleLine: int)
    | RefundExceeded(saleLine: int, conflict: bool)
    | StockExceeded(saleLine: int, conflict: bool)
    | LotWithoutStock(saleLine: int)
    | LotRequired(saleLine: int)
    | LotForbidden(saleLine: int)
    | CapacityLostWhileApplying(saleLine: int)

  datatype Result<+T> = Ok(value: T) | Err(error: ReturnError)

  /** The economic and the physical counter of every sale line. */
  datatype Counters = Counters(refunded: map<int, Decimal>, physical: map<int, Decimal>)

  function RefundBase(line: SaleLine, request: LineRequest): Decimal { request.refundPackages * line.packageFactor }

  function StockBase(line: SaleLine, request: LineRequest): Decimal { request.stockPackages * line.packageFactor }

  predicate LotRulesMet(line: SaleLine, request: LineRequest) {
    if StockBase(line, request) == 0.0 || !line.tracksStock then request.lot.None?
    else line.trackLots == request.lot.Some?
  }

  /** One line of the validation pass, against the capacities planned so far. */
  function Admit(lines: map<int, SaleLine>, planned: Counters, request: LineRequest): Result<Counters>
    requires planned.refunded.Keys == planned.physical.Keys == lines.Keys
  {
    var id := request.saleLine;
    if id !in lines then Err(UnknownLine(id))
    else
      var line := lines[id];
      var refund, stock := RefundBase(line, request), StockBase(line, request);
      if refund > line.quantityBase - planned.refunded[id] then Err(RefundExceeded(id, refund <= line.quantityBase))
      else if stock > line.quantityBase - planned.physical[id] then Err(StockExceeded(id, stock <= line.quantityBase))
      else if !LotRulesMet(line, request) then
        Err(if stock == 0.0 then LotWithoutStock(id)
            else if line.tracksStock && line.trackLots then LotRequired(id) else LotForbidden(id))
      else
        Ok(Counters(planned.refunded[id := planned.refunded[id] + refund],
                    planned.physical[id := planned.physical[id] + stock]))
  }

  lemma BasesSpelledOut(line: SaleLine, request: LineRequest)
    ensures RefundBase(line, request) == request.refundPackages * line.packageFactor
    ensures StockBase(line, request) == request.stockPackages * line.packageFactor
  {}

  /** Each refusal says what is wrong; a conflict is one that an untouched sale could have satisfied. */
  lemma RefusalsSayWhy(lines: map<int, SaleLine>, planned: Counters, request: LineRequest)
    requires planned.refunded.Keys == planned.physical.Keys == lines.Keys && WellFormed(request)
    requires Admit(lines, planned, request).Err?
    ensures var id := request.saleLine;
            match Admit(lines, planned, request).error
            case UnknownLine(x) => x == id && id !in lines
            case RefundExceeded(x, conflict) =>
              && x == id && id in lines
              && var line, asked := lines[id], request.refundPackages * lines[id].packageFactor;
                 asked > line.quantityBase - planned.refunded[id] && (conflict <==> asked <= line.quantityBase)
            case StockExceeded(x, conflict) =>
              && x == id && id in lines
              && var line, asked := lines[id], request.stockPackages * lines[id].packageFactor;
                 asked > line.quantityBase - planned.physical[id] && (conflict <==> asked <= line.quantityBase)
            case LotWithoutStock(x) => x == id && request.lot.Some? && request.stockPackages == 0.0
            case LotRequired(x) =>
              x == id && id in lines && lines[id].tracksStock && lines[id].trackLots && request.lot.None? && 0.0 < request.stockPackages
            case LotForbidden(x) =>
              x == id && id in lines && !(lines[id].tracksStock && lines[id].trackLots) && request.lot.Some?
            case CapacityLostWhileApplying(_) => false
  {
    hide RefundBase, StockBase;
    if request.saleLine in lines {
      BasesSpelledOut(lines[request.saleLine], request);
      Converted(request.stockPackages, lines[request.saleLine].packageFactor);
      StockIsNonNegative(lines[request.saleLine], request);
    }
  }

  lemma StockIsNonNegative(line: SaleLine, request: LineRequest)
    requires WellFormed(request)
    ensures StockBase(line, request) >= 0.0
  {}

  /** The whole validation pass, in execution order. */
  function Validate(lines: map<int, SaleLine>, start: Counters, requests: seq<LineRequest>): (r: Result<Counters>)
    requires start.refunded.Keys == start.physical.Keys == lines.Keys
    ensures r.Ok? ==> r.value.refunded.Keys == r.value.physical.Keys == lines.Keys
  {
    if requests == [] then Ok(start)
    else
      var last := |requests| - 1;
      var before := Validate(lines, start, requests[..last]);
      if before.Err? then before else Admit(lines, before.value, requests[last])
  }

  function RefundOf(lines: map<int, SaleLine>, id: int): LineRequest -> Decimal
    requires id in lines
  {
    (r: LineRequest) => if r.saleLine == id then RefundBase(lines[id], r) else 0.0
  }

  function StockOf(lines: map<int, SaleLine>, id: int): LineRequest -> Decimal
    requires id in lines
  {
    (r: LineRequest) => if r.saleLine == id then StockBase(lines[id], r) else 0.0
  }

  /** What a list of requests asks of one sale line. */
  function RefundAsked(lines: map<int, SaleLine>, requests: seq<LineRequest>, id: int): Decimal
    requires id in lines
  {
    Sum(requests, RefundOf(lines, id))
  }

  function StockAsked(lines: map<int, SaleLine>, requests: seq<LineRequest>, id: int): Decimal
    requires id in lines
  {
    Sum(requests, StockOf(lines, id))
  }

  /** Acceptance without any order: known lines, lot rules, and per sale line enough capacity for the sum. */
  ghost predicate Acceptable(lines: map<int, SaleLine>, start: Counters, requests: seq<LineRequest>)
    requires start.refunded.Keys == start.physical.Keys == lines.Keys
  {
    && (forall r :: r in requests ==> r.saleLine in lines && LotRulesMet(lines[r.saleLine], r))
    && (forall id :: id in lines ==>
          && start.refunded[id] + RefundAsked(lines, requests, id) <= lines[id].quantityBase
          && start.physical[id] + StockAsked(lines, requests, id) <= lines[id].quantityBase)
  }

  ghost predicate WithinCapacity(lines: map<int, SaleLine>, counters: Counters)
    requires counters.refunded.Keys == counters.physical.Keys == lines.Keys
  {
    forall id :: id in lines ==>
      counters.refunded[id] <= lines[id].quantityBase && counters.physical[id] <= lines[id].quantityBase
  }

  ghost predicate NoneNegative(counters: Counters) {
    && (forall id :: id in counters.refunded ==> 0.0 <= counters.refunded[id])
    && (forall id :: id in counters.physical ==> 0.0 <= counters.physical[id])
  }

  lemma BaseIsNonNegative(line: SaleLine, request: LineRequest)
    requires WellFormed(request)
    ensures 0.0 <= RefundBase(line, request) && 0.0 <= StockBase(line, request)
  {}

  ghost predicate LastFits(lines: map<int, SaleLine>, start: Counters, requests: seq<LineRequest>)
    requires start.refunded.Keys == start.physical.Keys == lines.Keys && requests != []
  {
    var r := requests[|requests| - 1];
    && r.saleLine in lines && LotRulesMet(lines[r.saleLine], r)
    && start.refunded[r.saleLine] + RefundAsked(lines, requests, r.saleLine) <= lines[r.saleLine].quantityBase
    && start.physical[r.saleLine] + StockAsked(lines, requests, r.saleLine) <= lines[r.saleLine].quantityBase
  }

  /** A lot number is given exactly when merchandise of a lot-tracked product goes back to stock. */
  lemma LotRulesMeaning(line: SaleLine, request: LineRequest)
    requires WellFormed(request)
    ensures LotRulesMet(line, request) <==>
              (request.lot.Some? <==> 0.0 < request.stockPackages && line.tracksStock && line.trackLots)
  {
    Converted(request.stockPackages, line.packageFactor);
  }

  lemma Converted(packages: Decimal, factor: Decimal)
    requires 0.0 <= packages && 0.0 < factor
    ensures packages * factor == 0.0 <==> packages == 0.0
  {}

  function RefundPackages(id: int): LineRequest -> Decimal { (r: LineRequest) => if r.saleLine == id then r.refundPackages else 0.0 }
  function StockPackages(id: int): LineRequest -> Decimal { (r: LineRequest) => if r.saleLine == id then r.stockPackages else 0.0 }

  /** What is asked of a line is the packages asked of it, to refund and to restock, at its factor. */
  lemma {:induction false} RefundAskedIsPackages(lines: map<int, SaleLine>, requests: seq<LineRequest>, id: int)
    requires id in lines
    ensures RefundAsked(lines, requests, id) == Sum(requests, RefundPackages(id)) * lines[id].packageFactor
  {
    hide Sellable;
    if requests != [] {
      var front, r := requests[..|requests| - 1], requests[|requests| - 1];
      RefundAskedIsPackages(lines, front, id);
      ConvertedSum(Sum(front, RefundPackages(id)), RefundPackages(id)(r), lines[id].packageFactor);
    }
  }

  lemma {:induction false} StockAskedIsPackages(lines: map<int, SaleLine>, requests: seq<LineRequest>, id: int)
    requires id in lines
    ensures StockAsked(lines, requests, id) == Sum(requests, StockPackages(id)) * lines[id].packageFactor
  {
    hide Sellable;
    if requests != [] {
      var front, r := requests[..|requests| - 1], requests[|requests| - 1];
      StockAskedIsPackages(lines, front, id);
      ConvertedSum(Sum(front, StockPackages(id)), StockPackages(id)(r), lines[id].packageFactor);
    }
  }

  lemma ConvertedSum(a: Decimal, b: Decimal, factor: Decimal)
    ensures (a + b) * factor == a * factor + b * factor
  {}

  lemma AcceptableStep(lines: map<int, SaleLine>, start: Counters, requests: seq<LineRequest>)
    requires start.refunded.Keys == start.physical.Keys == lines.Keys && requests != []
    requires WellFormed(requests[|requests| - 1])
    ensures Acceptable(lines, start, requests)
       <==> Acceptable(lines, start, requests[..|requests| - 1]) && LastFits(lines, start, requests)
  {
    hide RefundBase, StockBase, LotRulesMet, Sellable;
    var last := |requests| - 1;
    var prefix, r := requests[..last], requests[last];
    assert requests == prefix + [r];
    assert forall q :: q in requests <==> q in prefix || q == r;
    if r.saleLine in lines {
      BaseIsNonNegative(lines[r.saleLine], r);
    }
    forall id | id in lines
      ensures RefundAsked(lines, prefix, id) <= RefundAsked(lines, requests, id)
      ensures StockAsked(lines, prefix, id) <= StockAsked(lines, requests, id)
      ensures id != r.saleLine ==> RefundAsked(lines, prefix, id) == RefundAsked(lines, requests, id)
      ensures id != r.saleLine ==> StockAsked(lines, prefix, id) == StockAsked(lines, requests, id)
    {}
  }

  /** The pass accepts a request exactly when its lines fit together, whatever their order. */
  lemma {:induction false} ValidateMeaning(lines: map<int, SaleLine>, start: Counters, requests: seq<LineRequest>)
    requires start.refunded.Keys == start.physical.Keys == lines.Keys
    requires WithinCapacity(lines, start)
    requires forall r :: r in requests ==> WellFormed(r)
    ensures Validate(lines, start, requests).Ok? <==> Acceptable(lines, start, requests)
    ensures Validate(lines, start, requests).Ok? ==>
              forall id :: id in lines ==>
                && Validate(lines, start, requests).value.refunded[id] == start.refunded[id] + RefundAsked(lines, requests, id)
                && Validate(lines, start, requests).value.physical[id] == start.physical[id] + StockAsked(lines, requests, id)
  {
    hide RefundBase, StockBase, LotRulesMet, Sellable;
    if requests == [] {
    } else {
      assert WellFormed(requests[|requests| - 1]);
      hide Acceptable;
      ValidateMeaning(lines, start, requests[..|requests| - 1]);
      AcceptableStep(lines, start, requests);
    }
  }

  lemma {:induction false} RejectedPrefix(lines: map<int, SaleLine>, start: Counters, requests: seq<LineRequest>, n: nat)
    requires start.refunded.Keys == start.physical.Keys == lines.Keys
    requires n <= |requests| && Validate(lines, start, requests[..n]).Err?
    ensures Validate(lines, start, requests) == Validate(lines, start, requests[..n])
  {
    if n < |requests| {
      assert requests[..|requests| - 1][..n] == requests[..n];
      RejectedPrefix(lines, start, requests[..|requests| - 1], n);
    } else {
      assert requests[..n] == requests;
    }
  }

  lemma OrderIsIrrelevant(lines: map<int, SaleLine>, start: Counters, requests: seq<LineRequest>, ordered: seq<LineRequest>)
    requires start.refunded.Keys == start.physical.Keys == lines.Keys
    requires multiset(requests) == multiset(ordered)
    ensures Acceptable(lines, start, requests) <==> Acceptable(lines, start, ordered)
    ensures forall id :: id in lines ==>
              && RefundAsked(lines, requests, id) == RefundAsked(lines, ordered, id)
              && StockAsked(lines, requests, id) == StockAsked(lines, ordered, id)
  {
    hide LotRulesMet, RefundBase, StockBase, Sellable;
    forall id | id in lines
      ensures RefundAsked(lines, requests, id) == RefundAsked(lines, ordered, id)
      ensures StockAsked(lines, requests, id) == StockAsked(lines, ordered, id)
    {
      SumIsOrderFree(requests, ordered, RefundOf(lines, id));
      SumIsOrderFree(requests, ordered, StockOf(lines, id));
    }
    forall r ensures r in requests <==> r in ordered {
      assert r in requests <==> r in multiset(requests);
      assert r in ordered <==> r in multiset(ordered);
    }
  }

  lemma {:induction false} ValidatePrefix(lines: map<int, SaleLine>, start: Counters, requests: seq<LineRequest>, n: nat)
    requires start.refunded.Keys == start.physical.Keys == lines.Keys
    requires n <= |requests| && Validate(lines, start, requests).Ok?
    ensures Validate(lines, start, requests[..n]).Ok?
  {
    if n < |requests| {
      ValidatePrefix(lines, start, requests[..|requests| - 1], n);
      assert requests[..|requests| - 1][..n] == requests[..n];
    } else {
      assert requests[..n] == requests;
    }
  }

  function Refunded(history: seq<ReturnLine>, id: int): Decimal {
    if history == [] then 0.0
    else
      var last := |history| - 1;
      Refunded(history[..last], id) + (if history[last].saleLine == id then history[last].refundBase else 0.0)
  }

  function Physical(history: seq<ReturnLine>, id: int): Decimal {
    if history == [] then 0.0
    else
      var last := |history| - 1;
      Physical(history[..last], id) + (if history[last].saleLine == id then history[last].stockBase else 0.0)
  }

  function Paid(history: seq<ReturnLine>, id: int): Micro {
    if history == [] then 0
    else
      var last := |history| - 1;
      Paid(history[..last], id) + (if history[last].saleLine == id then history[last].amount else 0)
  }

  function PaidInAll(history: seq<ReturnLine>): Micro {
    if history == [] then 0 else PaidInAll(history[..|history| - 1]) + history[|history| - 1].amount
  }

  function Restocked(entries: seq<Restock>, id: int): Decimal {
    if entries == [] then 0.0
    else
      var last := |entries| - 1;
      Restocked(entries[..last], id) + (if entries[last].saleLine == id then entries[last].quantity else 0.0)
  }

  function Total(amounts: seq<Micro>): Micro {
    if amounts == [] then 0 else Total(amounts[..|amounts| - 1]) + amounts[|amounts| - 1]
  }

  /** Every return line was valued as the step between two cumulative quantities. */
  ghost predicate ValuedStepwise(lines: map<int, SaleLine>, inclusive: bool, history: seq<ReturnLine>) {
    if history == [] then true
    else
      var before, r := history[..|history| - 1], history[|history| - 1];
      && ValuedStepwise(lines, inclusive, before)
      && r.saleLine in lines && 0.0 <= r.refundBase && 0.0 <= r.stockBase
      && r.amount == ReturnAmount(lines[r.saleLine], Refunded(before, r.saleLine) + r.refundBase, inclusive)
                     - ReturnAmount(lines[r.saleLine], Refunded(before, r.saleLine), inclusive)
  }

  /** Telescoping: whatever the schedule of partial returns, a line has been paid back exactly the value of
      its cumulative refunded quantity. */
  lemma {:induction false} RefundsTelescope(lines: map<int, SaleLine>, inclusive: bool, history: seq<ReturnLine>, id: int)
    requires ValuedStepwise(lines, inclusive, history) && id in lines
    ensures Paid(history, id) == ReturnAmount(lines[id], Refunded(history, id), inclusive)
  {
    hide ReturnAmount, Sellable;
    if history == [] {
      ReturnAmountGrows(lines[id], 0.0, 0.0, inclusive);
    } else {
      RefundsTelescope(lines, inclusive, history[..|history| - 1], id);
    }
  }

  /** Whatever the schedule, what has been paid back on a line is the refunded share of what the line was charged, to
      within a millionth. */
  lemma PaidIsTheShare(lines: map<int, SaleLine>, inclusive: bool, history: seq<ReturnLine>, id: int)
    requires ValuedStepwise(lines, inclusive, history) && id in lines && Packaged(lines[id])
    requires 0.0 <= Refunded(history, id) <= lines[id].quantityBase && 0.0 < lines[id].quantityBase
    ensures -1.0 <= Paid(history, id) as real
                    - Refunded(history, id) / lines[id].quantityBase * LineTotals(lines[id], inclusive).total as real <= 1.0
  {
    hide ReturnAmount, Sellable, LineTotals, ValuedStepwise, Refunded, Paid, Packaged;
    RefundsTelescope(lines, inclusive, history, id);
    RefundIsTheShare(lines[id], Refunded(history, id), inclusive);
  }

  /** No step of any schedule takes money from the customer. */
  lemma {:induction false} RefundsAreNonNegative(lines: map<int, SaleLine>, inclusive: bool, history: seq<ReturnLine>)
    requires ValuedStepwise(lines, inclusive, history)
    ensures forall r :: r in history ==> 0 <= r.amount
  {
    hide ReturnAmount, Sellable, Refunded;
    if history != [] {
      var prefix, r := history[..|history| - 1], history[|history| - 1];
      RefundsAreNonNegative(lines, inclusive, prefix);
      var before := Refunded(prefix, r.saleLine);
      ReturnAmountGrows(lines[r.saleLine], before, before + r.refundBase, inclusive);
      assert history == prefix + [r];
    }
  }

  /** Two schedules that refund the same quantity of a line pay the same for it. */
  lemma ScheduleDoesNotMatter(lines: map<int, SaleLine>, inclusive: bool, one: seq<ReturnLine>, other: seq<ReturnLine>, id: int)
    requires ValuedStepwise(lines, inclusive, one) && ValuedStepwise(lines, inclusive, other) && id in lines
    requires Refunded(one, id) == Refunded(other, id)
    ensures Paid(one, id) == Paid(other, id)
    ensures Packaged(lines[id]) && Refunded(one, id) == lines[id].quantityBase ==> Paid(one, id) == LineTotals(lines[id], inclusive).total
  {
    RefundsTelescope(lines, inclusive, one, id);
    RefundsTelescope(lines, inclusive, other, id);
    if Packaged(lines[id]) {
      FullRefundIsTheCharge(lines[id], inclusive);
    }
  }

  function Picked(lines: map<int, SaleLine>, ids: seq<int>): (picked: seq<SaleLine>)
    requires forall id :: id in ids ==> id in lines
    ensures |picked| == |ids|
  {
    if ids == [] then []
    else
      var id := ids[|ids| - 1];
      assert id in ids;
      Picked(lines, ids[..|ids| - 1]) + [lines[id]]
  }

  function PaidOn(history: seq<ReturnLine>, ids: seq<int>): Micro {
    if ids == [] then 0 else PaidOn(history, ids[..|ids| - 1]) + Paid(history, ids[|ids| - 1])
  }

  lemma {:induction false} FullRefundsAddUp(lines: map<int, SaleLine>, inclusive: bool, ids: seq<int>, history: seq<ReturnLine>)
    requires ValuedStepwise(lines, inclusive, history)
    requires forall id :: id in ids ==> id in lines && Packaged(lines[id]) && Refunded(history, id) == lines[id].quantityBase
    ensures PaidOn(history, ids) == RawTotal(Picked(lines, ids), inclusive)
  {
    hide LineTotals, ValuedStepwise, Refunded, Paid, Packaged, Sellable;
    if ids != [] {
      var id, front := ids[|ids| - 1], ids[..|ids| - 1];
      assert id in ids;
      FullRefundsAddUp(lines, inclusive, front, history);
      ScheduleDoesNotMatter(lines, inclusive, history, history, id);
      assert Picked(lines, ids)[..|front|] == Picked(lines, front);
    }
  }

  lemma PaidStep(history: seq<ReturnLine>, r: ReturnLine, id: int)
    ensures Paid(history + [r], id) == Paid(history, id) + (if r.saleLine == id then r.amount else 0)
  {
    assert (history + [r])[..|history|] == history;
  }

  lemma {:induction false} PaidOnStep(history: seq<ReturnLine>, r: ReturnLine, ids: seq<int>)
    requires Distinct(ids)
    ensures PaidOn(history + [r], ids) == PaidOn(history, ids) + (if r.saleLine in ids then r.amount else 0)
  {
    hide Paid;
    if ids != [] {
      var front, id := ids[..|ids| - 1], ids[|ids| - 1];
      assert ids == front + [id] && id !in front;
      PaidOnStep(history, r, front);
      PaidStep(history, r, id);
    }
  }

  lemma {:induction false} NothingPaid(ids: seq<int>)
    ensures PaidOn([], ids) == 0
  {
    if ids != [] { NothingPaid(ids[..|ids| - 1]); }
  }

  /** However the lines of a sale are listed, each once, what was paid on them is all that was paid. */
  lemma {:induction false} PaidOnIsPaidInAll(lines: map<int, SaleLine>, inclusive: bool, ids: seq<int>, history: seq<ReturnLine>)
    requires ValuedStepwise(lines, inclusive, history)
    requires Distinct(ids) && Elements(ids) == lines.Keys
    ensures PaidOn(history, ids) == PaidInAll(history)
  {
    hide ReturnAmount, Refunded, PaidOn;
    if history == [] {
      NothingPaid(ids);
    } else {
      var front, r := history[..|history| - 1], history[|history| - 1];
      assert history == front + [r];
      PaidOnIsPaidInAll(lines, inclusive, ids, front);
      PaidOnStep(front, r, ids);
      assert r.saleLine in Elements(ids);
    }
  }

  /** A sale whose lines, each listed once, have all been refunded in full has paid back in all what it was charged, to
      within half a cent. */
  lemma FullyRefundedSale(lines: map<int, SaleLine>, inclusive: bool, ids: seq<int>, history: seq<ReturnLine>)
    requires ValuedStepwise(lines, inclusive, history)
    requires Distinct(ids) && Elements(ids) == lines.Keys
    requires forall id :: id in lines ==> Packaged(lines[id]) && Refunded(history, id) == lines[id].quantityBase
    ensures forall id :: id in ids ==> id in lines
    ensures -CENT <= 2 * (PaidInAll(history) - ChargeOf(Picked(lines, ids), inclusive)) <= CENT
  {
    hide ValuedStepwise, Refunded, Packaged, Sellable, RawTotal, PaidOn, PaidInAll;
    forall id | id in ids ensures id in lines { assert id in Elements(ids); }
    FullRefundsAddUp(lines, inclusive, ids, history);
    PaidOnIsPaidInAll(lines, inclusive, ids, history);
  }

  /** No schedule leaves a counter below zero. */
  lemma {:induction false} CountersAreNonNegative(lines: map<int, SaleLine>, inclusive: bool, history: seq<ReturnLine>, id: int)
    requires ValuedStepwise(lines, inclusive, history)
    ensures 0.0 <= Refunded(history, id) && 0.0 <= Physical(history, id)
  {
    hide ReturnAmount;
    if history != [] { CountersAreNonNegative(lines, inclusive, history[..|history| - 1], id); }
  }

  /** Execution order: product, then lot, then sale line; unknown lines first. */
  predicate RunsBefore(lines: map<int, SaleLine>, a: LineRequest, b: LineRequest) {
    var pa := if a.saleLine in lines then lines[a.saleLine].product else -1;
    var pb := if b.saleLine in lines then lines[b.saleLine].product else -1;
    var la, lb := a.lot.Some?, b.lot.Some?;
    if pa != pb then pa < pb
    else if la != lb then lb
    else if la && a.lot.value != b.lot.value then a.lot.value < b.lot.value
    else a.saleLine <= b.saleLine
  }

  function InExecutionOrder(lines: map<int, SaleLine>, requests: seq<LineRequest>): seq<LineRequest> {
    Sorting.Sort(requests, (a, b) => RunsBefore(lines, a, b))
  }

  /** Products ascend and, within a product, lots, none before any, and then sale lines: the order in which lots and
      balances are locked, however the request lists its lines. */
  lemma RequestsAscend(lines: map<int, SaleLine>, requests: seq<LineRequest>)
    requires forall r :: r in requests ==> r.saleLine in lines
    ensures var s := InExecutionOrder(lines, requests);
            && (forall i :: 0 <= i < |s| ==> s[i].saleLine in lines)
            && forall i, j :: 0 <= i < j < |s| ==>
                 var p, q, x, y := lines[s[i].saleLine].product, lines[s[j].saleLine].product, s[i].lot, s[j].lot;
                 && p <= q
                 && (p == q && x.Some? ==> y.Some? && x.value <= y.value)
                 && (p == q && x == y ==> s[i].saleLine <= s[j].saleLine)
  {
    hide Sellable, Sorting.Sort;
    Sorting.SortIsSorted(requests, (a, b) => RunsBefore(lines, a, b));
    Sorting.SameElements(requests, (a, b) => RunsBefore(lines, a, b));
    forall i | 0 <= i < |requests| ensures InExecutionOrder(lines, requests)[i].saleLine in lines {
      assert InExecutionOrder(lines, requests)[i] in InExecutionOrder(lines, requests);
    }
  }

  /** Everything a return changes about a sale, apart from the refund itself. */
  datatype Books = Books(counters: Counters, history: seq<ReturnLine>, restocks: seq<Restock>)

  /** Counters are the sums of the return lines, and every unit that came back of a stocked product is a ledger entry. */
  ghost predicate Consistent(lines: map<int, SaleLine>, inclusive: bool, books: Books) {
    && books.counters.refunded.Keys == books.counters.physical.Keys == lines.Keys
    && ValuedStepwise(lines, inclusive, books.history)
    && forall id :: id in lines ==>
         && books.counters.refunded[id] == Refunded(books.history, id)
         && books.counters.physical[id] == Physical(books.history, id)
         && Restocked(books.restocks, id) == (if lines[id].tracksStock then Physical(books.history, id) else 0.0)
  }

  function Booked(lines: map<int, SaleLine>, inclusive: bool, books: Books, request: LineRequest): (after: Books)
    requires request.saleLine in lines
    requires books.counters.refunded.Keys == books.counters.physical.Keys == lines.Keys
  {
    var id := request.saleLine;
    var line, refunded, physical := lines[id], books.counters.refunded, books.counters.physical;
    var refund, stock := RefundBase(line, request), StockBase(line, request);
    var amount := if refund > 0.0 then
        ReturnAmount(line, refunded[id] + refund, inclusive) - ReturnAmount(line, refunded[id], inclusive) else 0;
    var moves := stock > 0.0 && line.tracksStock;
    var lot := if moves && line.trackLots then request.lot else None;
    Books(Counters(refunded[id := refunded[id] + refund], physical[id := physical[id] + stock]),
          books.history + [ReturnLine(id, refund, stock, amount, lot)],
          if moves then books.restocks + [Restock(id, stock, lot)] else books.restocks)
  }

  lemma AppendedLine(history: seq<ReturnLine>, r: ReturnLine, id: int)
    ensures Refunded(history + [r], id) == Refunded(history, id) + (if r.saleLine == id then r.refundBase else 0.0)
    ensures Physical(history + [r], id) == Physical(history, id) + (if r.saleLine == id then r.stockBase else 0.0)
  {
    assert (history + [r])[..|history|] == history;
  }

  lemma AppendedRestock(entries: seq<Restock>, e: Restock, id: int)
    ensures Restocked(entries + [e], id) == Restocked(entries, id) + (if e.saleLine == id then e.quantity else 0.0)
  {
    assert (entries + [e])[..|entries|] == entries;
  }

  lemma ConsistentIsNonNegative(lines: map<int, SaleLine>, inclusive: bool, books: Books)
    requires Consistent(lines, inclusive, books)
    ensures NoneNegative(books.counters)
  {
    hide ValuedStepwise, Refunded, Physical, Restocked;
    forall id | id in lines ensures 0.0 <= Refunded(books.history, id) && 0.0 <= Physical(books.history, id) {
      CountersAreNonNegative(lines, inclusive, books.history, id);
    }
  }

  lemma BookingKeepsValuation(lines: map<int, SaleLine>, inclusive: bool, books: Books, request: LineRequest)
    requires Consistent(lines, inclusive, books) && WellFormed(request) && request.saleLine in lines
    ensures ValuedStepwise(lines, inclusive, Booked(lines, inclusive, books, request).history)
  {
    hide ReturnAmount, Sellable, RefundBase, StockBase, Restocked, Physical, Refunded;
    BaseIsNonNegative(lines[request.saleLine], request);
    var after := Booked(lines, inclusive, books, request);
    assert after.history[..|books.history|] == books.history;
  }

  lemma BookingKeepsCounters(lines: map<int, SaleLine>, inclusive: bool, books: Books, request: LineRequest, id: int)
    requires Consistent(lines, inclusive, books) && request.saleLine in lines && id in lines
    ensures var after := Booked(lines, inclusive, books, request);
            && after.counters.refunded[id] == Refunded(after.history, id)
            && after.counters.physical[id] == Physical(after.history, id)
  {
    hide ReturnAmount, Sellable, RefundBase, StockBase, Restocked, Physical, Refunded, ValuedStepwise;
    var after := Booked(lines, inclusive, books, request);
    AppendedLine(books.history, after.history[|books.history|], id);
  }

  lemma BookingKeepsRestocks(lines: map<int, SaleLine>, inclusive: bool, books: Books, request: LineRequest, id: int)
    requires Consistent(lines, inclusive, books) && WellFormed(request) && request.saleLine in lines && id in lines
    ensures var after := Booked(lines, inclusive, books, request);
            Restocked(after.restocks, id) == (if lines[id].tracksStock then Physical(after.history, id) else 0.0)
  {
    hide ReturnAmount, Sellable, RefundBase, StockBase, Restocked, Physical, Refunded, ValuedStepwise;
    BaseIsNonNegative(lines[request.saleLine], request);
    var after := Booked(lines, inclusive, books, request);
    AppendedLine(books.history, after.history[|books.history|], id);
    if after.restocks != books.restocks {
      AppendedRestock(books.restocks, after.restocks[|books.restocks|], id);
    }
  }

  lemma BookingKeepsConsistent(lines: map<int, SaleLine>, inclusive: bool, books: Books, request: LineRequest)
    requires Consistent(lines, inclusive, books) && WellFormed(request) && request.saleLine in lines
    ensures Consistent(lines, inclusive, Booked(lines, inclusive, books, request))
  {
    hide ReturnAmount, Sellable, RefundBase, StockBase, Restocked, Physical, Refunded, ValuedStepwise;
    BookingKeepsValuation(lines, inclusive, books, request);
    var after := Booked(lines, inclusive, books, request);
    assert after.counters.refunded.Keys == after.counters.physical.Keys == lines.Keys;
    hide Booked;
    forall id | id in lines
      ensures after.counters.refunded[id] == Refunded(after.history, id)
      ensures after.counters.physical[id] == Physical(after.history, id)
      ensures Restocked(after.restocks, id) == (if lines[id].tracksStock then Physical(after.history, id) else 0.0)
    {
      BookingKeepsCounters(lines, inclusive, books, request, id);
      BookingKeepsRestocks(lines, inclusive, books, request, id);
    }
  }

  /** The second pass as a whole; a line of another sale would leave the books alone. */
  function BookedAll(lines: map<int, SaleLine>, inclusive: bool, start: Books, requests: seq<LineRequest>): (after: Books)
    requires start.counters.refunded.Keys == start.counters.physical.Keys == lines.Keys
    ensures after.counters.refunded.Keys == after.counters.physical.Keys == lines.Keys
  {
    if requests == [] then start
    else
      var before, last := BookedAll(lines, inclusive, start, requests[..|requests| - 1]), requests[|requests| - 1];
      if last.saleLine in lines then Booked(lines, inclusive, before, last) else before
  }

  /** What was planned is what gets booked, so the second pass never runs out of capacity. */
  lemma {:induction false} BookedIsPlanned(lines: map<int, SaleLine>, inclusive: bool, start: Books, requests: seq<LineRequest>)
    requires start.counters.refunded.Keys == start.counters.physical.Keys == lines.Keys
    requires Consistent(lines, inclusive, start) && forall q :: q in requests ==> WellFormed(q)
    requires Validate(lines, start.counters, requests).Ok?
    ensures BookedAll(lines, inclusive, start, requests).counters == Validate(lines, start.counters, requests).value
    ensures Consistent(lines, inclusive, BookedAll(lines, inclusive, start, requests))
    ensures |BookedAll(lines, inclusive, start, requests).history| == |start.history| + |requests|
    ensures BookedAll(lines, inclusive, start, requests).history[..|start.history|] == start.history
  {
    hide ReturnAmount, Sellable, RefundBase, StockBase, LotRulesMet, Consistent;
    if requests != [] {
      var last := requests[|requests| - 1];
      assert WellFormed(last);
      BookedIsPlanned(lines, inclusive, start, requests[..|requests| - 1]);
      BookingKeepsConsistent(lines, inclusive, BookedAll(lines, inclusive, start, requests[..|requests| - 1]), last);
    }
  }

  /** One step of the second pass: its capacity test passes, and it appends exactly one return line. */
  lemma StepFits(lines: map<int, SaleLine>, inclusive: bool, start: Books, requests: seq<LineRequest>, i: nat)
    requires start.counters.refunded.Keys == start.counters.physical.Keys == lines.Keys
    requires Consistent(lines, inclusive, start) && forall q :: q in requests ==> WellFormed(q)
    requires i < |requests| && Validate(lines, start.counters, requests).Ok?
    ensures requests[i].saleLine in lines
    ensures var id, before := requests[i].saleLine, BookedAll(lines, inclusive, start, requests[..i]);
            && RefundBase(lines[id], requests[i]) <= lines[id].quantityBase - before.counters.refunded[id]
            && StockBase(lines[id], requests[i]) <= lines[id].quantityBase - before.counters.physical[id]
            && BookedAll(lines, inclusive, start, requests[..i + 1]) == Booked(lines, inclusive, before, requests[i])
            && PaidInAll(Booked(lines, inclusive, before, requests[i]).history)
               == PaidInAll(before.history) + Booked(lines, inclusive, before, requests[i]).history[|before.history|].amount
  {
    hide ReturnAmount, Sellable, RefundBase, StockBase, LotRulesMet, Consistent, Booked;
    assert requests[..i + 1][..i] == requests[..i];
    ValidatePrefix(lines, start.counters, requests, i + 1);
    ValidatePrefix(lines, start.counters, requests, i);
    BookedIsPlanned(lines, inclusive, start, requests[..i]);
    PaidOneMore(lines, inclusive, BookedAll(lines, inclusive, start, requests[..i]), requests[i]);
  }

  lemma PaidOneMore(lines: map<int, SaleLine>, inclusive: bool, books: Books, request: LineRequest)
    requires request.saleLine in lines
    requires books.counters.refunded.Keys == books.counters.physical.Keys == lines.Keys
    ensures var after := Booked(lines, inclusive, books, request);
            && |after.history| == |books.history| + 1
            && PaidInAll(after.history) == PaidInAll(books.history) + after.history[|books.history|].amount
  {
    hide ReturnAmount, Sellable, RefundBase, StockBase;
    var after := Booked(lines, inclusive, books, request);
    assert after.history[..|books.history|] == books.history;
  }

  lemma NothingPaidForGoods(lines: map<int, SaleLine>, inclusive: bool, books: Books, request: LineRequest)
    requires request.saleLine in lines && request.refundPackages == 0.0
    requires books.counters.refunded.Keys == books.counters.physical.Keys == lines.Keys
    ensures Booked(lines, inclusive, books, request).history[|books.history|].amount == 0
  {
    hide ReturnAmount, Sellable, StockBase;
  }

  lemma ExecutionKeepsMeaning(lines: map<int, SaleLine>, start: Counters, requests: seq<LineRequest>, ordered: seq<LineRequest>)
    requires start.refunded.Keys == start.physical.Keys == lines.Keys && WithinCapacity(lines, start)
    requires forall r :: r in requests ==> WellFormed(r)
    requires ordered == InExecutionOrder(lines, requests)
    ensures Validate(lines, start, ordered).Ok? <==> Acceptable(lines, start, requests)
    ensures |ordered| == |requests| && forall r :: r in ordered <==> r in requests
    ensures Validate(lines, start, ordered).Ok? ==>
              var after := Validate(lines, start, ordered).value;
              WithinCapacity(lines, after) && forall id :: id in lines ==>
                && after.refunded[id] == start.refunded[id] + RefundAsked(lines, requests, id)
                && after.physical[id] == start.physical[id] + StockAsked(lines, requests, id)
  {
    hide RefundBase, StockBase, LotRulesMet, Sellable, RefundAsked, StockAsked, Validate;
    forall r ensures r in requests <==> r in ordered {
      assert r in requests <==> r in multiset(requests);
      assert r in ordered <==> r in multiset(ordered);
    }
    OrderIsIrrelevant(lines, start, requests, ordered);
    ValidateMeaning(lines, start, ordered);
  }

  class CompletedSale {
    const lines: map<int, SaleLine>
    const inclusive: bool
    var refunded: map<int, Decimal>
    var physical: map<int, Decimal>
    var history: seq<ReturnLine>
    var restocks: seq<Restock>
    var refunds: seq<Micro>

    function State(): Books
      reads this
    {
      Books(Counters(refunded, physical), history, restocks)
    }

    /** Counters stay between zero and what was sold, and refunds are what the return lines are worth. */
    ghost predicate Valid()
      reads this
    {
      && refunded.Keys == physical.Keys == lines.Keys
      && Consistent(lines, inclusive, State())
      && WithinCapacity(lines, State().counters) && NoneNegative(State().counters)
      && Total(refunds) == PaidInAll(history)
    }

    constructor (lines: map<int, SaleLine>, inclusive: bool)
      ensures Valid() && this.lines == lines && this.inclusive == inclusive
      ensures history == [] && restocks == [] && refunds == []
    {
      this.lines, this.inclusive := lines, inclusive;
      refunded := map id | id in lines :: 0.0;
      physical := map id | id in lines :: 0.0;
      history, restocks, refunds := [], [], [];
    }

    /** Books one accepted line: capacities again, then value, ledger entry, counters and the return line. */
    method ApplyReturnLine(request: LineRequest) returns (r: Result<Micro>)
      requires request.saleLine in lines
      requires refunded.Keys == physical.Keys == lines.Keys
      modifies this
      ensures refunds == old(refunds)
      ensures r.Ok? <==>
                && RefundBase(lines[request.saleLine], request) <= lines[request.saleLine].quantityBase - old(refunded[request.saleLine])
                && StockBase(lines[request.saleLine], request) <= lines[request.saleLine].quantityBase - old(physical[request.saleLine])
      ensures r.Err? ==> unchanged(this) && r.error.CapacityLostWhileApplying?
      ensures r.Ok? ==> State() == Booked(lines, inclusive, old(State()), request)
      ensures r.Ok? ==> |history| == |old(history)| + 1 && r.value == history[|old(history)|].amount
      ensures r.Ok? ==>
                var id, line := request.saleLine, lines[request.saleLine];
                var refund, stock := RefundBase(line, request), StockBase(line, request);
                && refund == request.refundPackages * line.packageFactor && stock == request.stockPackages * line.packageFactor
                && var lot := if stock > 0.0 && line.tracksStock && line.trackLots then request.lot else None;
                   && history == old(history) + [ReturnLine(id, refund, stock, r.value, lot)]
                   && restocks == old(restocks) + (if stock > 0.0 && line.tracksStock then [Restock(id, stock, lot)] else [])
                   && refunded == old(refunded)[id := old(refunded)[id] + refund]
                   && physical == old(physical)[id := old(physical)[id] + stock]
    {
      hide ReturnAmount, Sellable, RefundBase, StockBase;
      var id := request.saleLine;
      var line := lines[id];
      var refund, stock := RefundBase(line, request), StockBase(line, request);
      BasesSpelledOut(line, request);
      if refund > line.quantityBase - refunded[id] || stock > line.quantityBase - physical[id] {
        return Err(CapacityLostWhileApplying(id));
      }
      var amount := 0;
      if refund > 0.0 {
        amount := ReturnAmount(line, refunded[id] + refund, inclusive) - ReturnAmount(line, refunded[id], inclusive);
      }
      var lot := None;
      if stock > 0.0 && line.tracksStock {
        lot := if line.trackLots then request.lot else None;
        restocks := restocks + [Restock(id, stock, lot)];
      }
      refunded := refunded[id := refunded[id] + refund];
      physical := physical[id := physical[id] + stock];
      history := history + [ReturnLine(id, refund, stock, amount, lot)];
      return Ok(amount);
    }

    /** All or nothing: two passes over the lines in execution order, then one refund for the whole return. */
    method CreateReturn(requests: seq<LineRequest>, economic: bool) returns (r: Result<Micro>)
      requires Valid() && forall q :: q in requests ==> WellFormed(q)
      requires economic <==> exists q :: q in requests && 0.0 < q.refundPackages
      modifies this
      ensures Valid()
      ensures r.Ok? <==> Acceptable(lines, old(State().counters), requests)
      ensures r.Err? ==> unchanged(this) && !r.error.CapacityLostWhileApplying?
      ensures r.Ok? ==> State() == BookedAll(lines, inclusive, old(State()), InExecutionOrder(lines, requests))
      ensures r.Ok? ==> r.value == PaidInAll(history) - PaidInAll(old(history))
      ensures r.Ok? ==> refunds == (if economic then old(refunds) + [r.value] else old(refunds))
      ensures r.Ok? ==> |history| == |old(history)| + |requests| && history[..|old(history)|] == old(history)
      ensures r.Ok? ==> forall id :: id in lines ==>
                && refunded[id] == old(refunded)[id] + RefundAsked(lines, requests, id)
                && physical[id] == old(physical)[id] + StockAsked(lines, requests, id)
    {
      hide ReturnAmount, Sellable, RefundBase, StockBase, LotRulesMet, Acceptable, RefundAsked, StockAsked, Validate;
      hide BookedAll, Consistent, PaidInAll, InExecutionOrder, Booked;
      var ordered := InExecutionOrder(lines, requests);
      ghost var start := State();
      ExecutionKeepsMeaning(lines, start.counters, requests, ordered);
      var plan := ValidateReturn(ordered);
      if plan.Err? {
        return Err(plan.error);
      }
      BookedIsPlanned(lines, inclusive, start, ordered);
      r := BookReturn(ordered);
      ConsistentIsNonNegative(lines, inclusive, State());
      if economic {
        refunds := refunds + [r.value];
        assert refunds[..|refunds| - 1] == old(refunds);
      }
    }

    /** The first pass: nothing is written, and capacities are planned line by line. */
    method ValidateReturn(ordered: seq<LineRequest>) returns (r: Result<Counters>)
      requires refunded.Keys == physical.Keys == lines.Keys
      ensures r == Validate(lines, State().counters, ordered)
      ensures r.Err? ==> !r.error.CapacityLostWhileApplying?
    {
      var planned := Counters(refunded, physical);
      for i := 0 to |ordered|
        invariant Validate(lines, State().counters, ordered[..i]) == Ok(planned)
      {
        var step := Admit(lines, planned, ordered[i]);
        assert ordered[..i + 1][..i] == ordered[..i];
        if step.Err? {
          RejectedPrefix(lines, State().counters, ordered, i + 1);
          return Err(step.error);
        }
        planned := step.value;
      }
      assert ordered[..|ordered|] == ordered;
      return Ok(planned);
    }

    /** The second pass: every line of an accepted return is booked. */
    method BookReturn(ordered: seq<LineRequest>) returns (r: Result<Micro>)
      requires refunded.Keys == physical.Keys == lines.Keys
      requires Consistent(lines, inclusive, State())
      requires forall q :: q in ordered ==> WellFormed(q)
      requires Validate(lines, State().counters, ordered).Ok?
      modifies this
      ensures r.Ok? && r.value == PaidInAll(history) - PaidInAll(old(history))
      ensures State() == BookedAll(lines, inclusive, old(State()), ordered)
      ensures refunds == old(refunds)
      ensures (forall q :: q in ordered ==> q.refundPackages == 0.0) ==> r.value == 0
    {
      hide ReturnAmount, Sellable, RefundBase, StockBase, LotRulesMet, Consistent, Validate, Booked, PaidInAll;
      var amount := 0;
      ghost var start := State();
      assert ordered[..0] == [];
      for i := 0 to |ordered|
        invariant State() == BookedAll(lines, inclusive, start, ordered[..i])
        invariant refunds == old(refunds)
        invariant amount == PaidInAll(history) - PaidInAll(start.history)
        invariant (forall q :: q in ordered ==> q.refundPackages == 0.0) ==> amount == 0
      {
        StepFits(lines, inclusive, start, ordered, i);
        ghost var before := State();
        if forall q :: q in ordered ==> q.refundPackages == 0.0 {
          assert ordered[i] in ordered;
          NothingPaidForGoods(lines, inclusive, before, ordered[i]);
        }
        var paid := ApplyReturnLine(ordered[i]);
        amount := amount + paid.value;
      }
      assert ordered[..|ordered|] == ordered;
      return Ok(amount);
    }
  }

  /** The refunds issued on a sale that was refunded in full add up to its charge, to within half a cent. */
  lemma RefundedInFull(sale: CompletedSale, ids: seq<int>)
    requires sale.Valid() && Distinct(ids) && Elements(ids) == sale.lines.Keys
    requires forall id :: id in sale.lines ==> Packaged(sale.lines[id]) && sale.refunded[id] == sale.lines[id].quantityBase
    ensures forall id :: id in ids ==> id in sale.lines
    ensures -CENT <= 2 * (Total(sale.refunds) - ChargeOf(Picked(sale.lines, ids), sale.inclusive)) <= CENT
  {
    hide ValuedStepwise, Refunded, Packaged, Sellable, ChargeOf, Physical, Restocked;
    FullyRefundedSale(sale.lines, sale.inclusive, ids, sale.history);
  }
}
