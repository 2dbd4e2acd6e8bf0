/** List prices: computed from formulas and inherited inputs, or fixed by hand, with a history of every change. */
module Pricing {
  import opened Money
  import opened Sums

  type Formula = int

  datatype Variables = Variables(cost: Decimal, taxRate: Decimal, surchargeRate: Decimal, marginRate: Decimal)

  /** The formula language: what may be saved, and what it evaluates to, or `None` for a formula error. */
  datatype Engine = Engine(valid: Formula -> bool, evaluate: (Formula, Variables) -> Option<Decimal>)

  datatype Tax = Tax(rate: Decimal, surchargeRate: Decimal, active: bool)

  datatype Category = Category(marginRate: Option<Decimal>, marginAmount: Option<Decimal>, formula: Option<Formula>, taxes: set<nat>)

  /** Everything a price depends on besides the product. Tax ids are positions. */
  datatype Rules = Rules(categories: map<int, Category>, taxes: seq<Tax>, formula: Formula)

  datatype Inputs = Inputs(cost: Decimal, taxRate: Decimal, surchargeRate: Decimal, marginRate: Option<Decimal>,
                           marginAmount: Option<Decimal>, taxes: set<nat>)

  datatype Entry = Entry(listPrice: Micro, cost: Decimal)

  datatype Product = Product(inputs: Inputs, category: Option<int>, formula: Option<Formula>, listPrice: Micro, manual: bool,
                             history: seq<Entry>)

  /** Product ids are positions; deleting a product is not part of this model. */
  datatype Shop = Shop(products: seq<Product>, rules: Rules)

  datatype Error = NotFound | Validation | Conflict

  datatype Outcome<+T> = Ok(value: T) | Err(error: Error)

  // Effective inputs: the product's own, else its category's, else a default.

  function CategoryOf(rules: Rules, p: Product): Option<Category> {
    if p.category.Some? && p.category.value in rules.categories then Some(rules.categories[p.category.value]) else None
  }

  function TaxTotal(taxes: seq<Tax>, ids: set<nat>, surcharge: bool): Decimal {
    if taxes == [] then 0.0
    else
      var last := |taxes| - 1;
      var t := taxes[last];
      TaxTotal(taxes[..last], ids, surcharge)
        + (if last in ids && t.active then (if surcharge then t.surchargeRate else t.rate) else 0.0)
  }

  function EffectiveRate(rules: Rules, p: Product, surcharge: bool): Decimal {
    var c := CategoryOf(rules, p);
    if p.inputs.taxes != {} then TaxTotal(rules.taxes, p.inputs.taxes, surcharge)
    else if c.Some? && c.value.taxes != {} then TaxTotal(rules.taxes, c.value.taxes, surcharge)
    else if surcharge then p.inputs.surchargeRate
    else p.inputs.taxRate
  }

  function EffectiveMarginRate(rules: Rules, p: Product): Decimal {
    var c := CategoryOf(rules, p);
    if p.inputs.marginRate.Some? then p.inputs.marginRate.value
    else if c.Some? && c.value.marginRate.Some? then c.value.marginRate.value
    else 0.0
  }

  function EffectiveMarginAmount(rules: Rules, p: Product): Decimal {
    var c := CategoryOf(rules, p);
    if p.inputs.marginAmount.Some? then p.inputs.marginAmount.value
    else if c.Some? && c.value.marginAmount.Some? then c.value.marginAmount.value
    else 0.0
  }

  function EffectiveFormula(rules: Rules, p: Product): Formula {
    var c := CategoryOf(rules, p);
    if p.formula.Some? then p.formula.value
    else if c.Some? && c.value.formula.Some? then c.value.formula.value
    else rules.formula
  }

  /** The formula's result plus the fixed margin, before the retail rounding. */
  function Automatic(engine: Engine, rules: Rules, p: Product): Option<Decimal> {
    var inputs := Variables(p.inputs.cost, EffectiveRate(rules, p, false), EffectiveRate(rules, p, true),
                            EffectiveMarginRate(rules, p));
    match engine.evaluate(EffectiveFormula(rules, p), inputs)
    case None => None
    case Some(x) => Some(x + EffectiveMarginAmount(rules, p))
  }

  const STEP: Micro := 50_000

  /** Up to the next five cents. */
  function RetailPrice(value: Decimal): Micro {
    -(-(value / 0.05)).Floor * STEP
  }

  lemma StepsAreMoney(m: int)
    ensures (m * STEP) as real == m as real * 50000.0 && (m * STEP) % STEP == 0
  {}

  /** The automatic price is the least multiple of five cents that is not below the calculation. */
  lemma RetailPriceIsLeast(value: Decimal)
    ensures RetailPrice(value) % STEP == 0 && RetailPrice(value) as real >= value * 1000000.0
    ensures forall m: int :: (m * STEP) as real >= value * 1000000.0 ==> RetailPrice(value) <= m * STEP
  {
    var steps := value * 20.0;
    var n := -(-steps).Floor;
    assert value / 0.05 == steps;
    StepsAreMoney(n);
    forall m: int | (m * STEP) as real >= value * 1000000.0 ensures n * STEP <= m * STEP {
      StepsAreMoney(m);
      assert m as real >= steps;
    }
  }

  // Single products.

  /** A manual price is never overwritten. */
  function Repriced(engine: Engine, rules: Rules, p: Product): Outcome<Product> {
    if p.manual then Ok(p)
    else match Automatic(engine, rules, p)
      case None => Err(Validation)
      case Some(x) => Ok(p.(listPrice := RetailPrice(x)))
  }

  function StoredOption(o: Option<Decimal>): Option<Decimal> { if o.Some? then Some(Stored(o.value)) else None }

  /** What the product's row keeps of its inputs. */
  function StoredInputs(a: Inputs): Inputs {
    Inputs(Stored(a.cost), Stored(a.taxRate), Stored(a.surchargeRate), StoredOption(a.marginRate), StoredOption(a.marginAmount),
           a.taxes)
  }

  function StoredTax(t: Tax): Tax { Tax(Stored(t.rate), Stored(t.surchargeRate), t.active) }

  function StoredCategory(c: Category): Category {
    c.(marginRate := StoredOption(c.marginRate), marginAmount := StoredOption(c.marginAmount))
  }

  function Recorded(p: Product): Product { p.(history := p.history + [Entry(p.listPrice, Stored(p.inputs.cost))]) }

  function RepricedAndRecorded(engine: Engine, rules: Rules, p: Product): Outcome<Product> {
    match Repriced(engine, rules, p)
    case Err(e) => Err(e)
    case Ok(q) => Ok(Recorded(q))
  }

  /** The fields a request leaves out stay as they are; a margin can also be set to inherit. */
  datatype Update = Update(cost: Option<Decimal>, taxRate: Option<Decimal>, surchargeRate: Option<Decimal>,
                           marginRate: Option<Option<Decimal>>, marginAmount: Option<Option<Decimal>>, taxes: Option<set<nat>>)

  function Given<T>(given: Option<T>, current: T): T { if given.Some? then given.value else current }

  function Updated(a: Inputs, u: Update): Inputs {
    Inputs(Given(u.cost, a.cost), Given(u.taxRate, a.taxRate), Given(u.surchargeRate, a.surchargeRate),
           Given(u.marginRate, a.marginRate), Given(u.marginAmount, a.marginAmount), Given(u.taxes, a.taxes))
  }

  /** The row after the transaction: a price is computed from the inputs as given, which are then stored. */
  function StoredProduct(p: Product): Product { p.(inputs := StoredInputs(p.inputs)) }

  function WithInputs(engine: Engine, rules: Rules, p: Product, u: Update): Outcome<Product> {
    if u.taxes.Some? && exists t :: t in u.taxes.value && t >= |rules.taxes| then Err(Validation)
    else if Updated(p.inputs, u) == p.inputs then Ok(p)
    else match RepricedAndRecorded(engine, rules, p.(inputs := Updated(p.inputs, u)))
      case Err(e) => Err(e)
      case Ok(q) => Ok(StoredProduct(q))
  }

  /** A received cost has six decimals already. */
  function WithCost(engine: Engine, rules: Rules, p: Product, received: Decimal): Outcome<Product> {
    if p.inputs.cost == received then Ok(p)
    else RepricedAndRecorded(engine, rules, p.(inputs := p.inputs.(cost := received)))
  }

  function WithFormula(engine: Engine, rules: Rules, p: Product, f: Formula): Outcome<Product> {
    RepricedAndRecorded(engine, rules, p.(formula := Some(f)))
  }

  function WithManual(p: Product, price: Decimal): Product {
    Recorded(p.(formula := None, listPrice := StoredMicro(price), manual := true))
  }

  function WithoutManual(engine: Engine, rules: Rules, p: Product): Outcome<Product> {
    RepricedAndRecorded(engine, rules, p.(manual := false))
  }

  // Many products.

  /** Every selected automatic product gets a fresh price and a history entry; one failing formula stops it all. */
  function RepriceAll(engine: Engine, rules: Rules, products: seq<Product>, selected: Product -> bool): Outcome<seq<Product>> {
    if products == [] then Ok([])
    else
      var front, p := products[..|products| - 1], products[|products| - 1];
      match RepriceAll(engine, rules, front, selected)
      case Err(e) => Err(e)
      case Ok(before) =>
        if !selected(p) || p.manual then Ok(before + [p])
        else match RepricedAndRecorded(engine, rules, p)
          case Err(e) => Err(e)
          case Ok(q) => Ok(before + [q])
  }

  type Factor = f: Decimal | f > 0.0 witness 1.0

  /** A receipt line: the package cost and factor of its order line, and the catalogue cost shown when it was confirmed. */
  datatype CostLine = CostLine(product: nat, unitCost: Decimal, factor: Factor, expected: Decimal)

  /** The order's package cost, per base unit, as it is stored. */
  function Received(line: CostLine): Decimal {
    Quantize(line.unitCost / line.factor) as real / 1000000.0
  }

  predicate OneEach(lines: seq<CostLine>) {
    forall i, j :: 0 <= i < j < |lines| ==> lines[i].product != lines[j].product
  }

  predicate Stale(products: seq<Product>, line: CostLine)
    requires line.product < |products|
  {
    var cost := products[line.product].inputs.cost;
    cost != Received(line) && cost != line.expected
  }

  function CostsRefusal(products: seq<Product>, lines: seq<CostLine>): Option<Error> {
    if !OneEach(lines) then Some(Validation)
    else if exists i :: 0 <= i < |lines| && lines[i].product >= |products| then Some(NotFound)
    else if exists i :: 0 <= i < |lines| && Stale(products, lines[i]) then Some(Conflict)
    else None
  }

  function CostAll(engine: Engine, rules: Rules, products: seq<Product>, lines: seq<CostLine>): (r: Outcome<seq<Product>>)
    requires forall i :: 0 <= i < |lines| ==> lines[i].product < |products|
    ensures r.Ok? ==> |r.value| == |products|
  {
    if lines == [] then Ok(products)
    else
      var line := lines[|lines| - 1];
      match CostAll(engine, rules, products, lines[..|lines| - 1])
      case Err(e) => Err(e)
      case Ok(now) =>
        match WithCost(engine, rules, now[line.product], Received(line))
        case Err(e) => Err(e)
        case Ok(q) => Ok(now[line.product := q])
  }

  function WithCosts(engine: Engine, rules: Rules, products: seq<Product>, lines: seq<CostLine>): Outcome<seq<Product>> {
    var refused := CostsRefusal(products, lines);
    if refused.Some? then Err(refused.value) else CostAll(engine, rules, products, lines)
  }

  datatype Op =
    | NewProduct(product: Product)
    | SetInputs(id: nat, update: Update)
    | ApplyCosts(lines: seq<CostLine>)
    | SetFormula(id: nat, formula: Formula)
    | ClearFormula(id: nat)
    | SetManual(id: nat, price: Decimal)
    | ClearManual(id: nat)
    | ChangeCategory(id: nat, category: Option<int>)
    | NewTax(tax: Tax)
    | ChangeTax(taxId: nat, rate: Decimal, surchargeRate: Decimal)
    | SetTaxActive(taxId: nat, active: bool)
    | ChangeCategoryPricing(categoryId: int, pricing: Category)
    | ChangeShopFormula(formula: Formula)

  function Single(shop: Shop, id: nat, r: Outcome<Product>): Outcome<Shop>
    requires id < |shop.products|
  {
    match r
    case Err(e) => Err(e)
    case Ok(q) => Ok(shop.(products := shop.products[id := q]))
  }

  function Many(shop: Shop, rules: Rules, r: Outcome<seq<Product>>): Outcome<Shop> {
    match r
    case Err(e) => Err(e)
    case Ok(products) => Ok(Shop(products, rules))
  }

  function Anything(): Product -> bool { (p: Product) => true }
  function InCategory(c: int): Product -> bool { (p: Product) => p.category == Some(c) }
  function Inheriting(): Product -> bool { (p: Product) => p.formula.None? && !p.manual }

  function WithTax(engine: Engine, shop: Shop, t: nat, tax: Tax): Outcome<Shop>
    requires t < |shop.rules.taxes|
  {
    var rules := shop.rules;
    if tax == rules.taxes[t] then Ok(shop)
    else
      Many(shop, rules.(taxes := rules.taxes[t := StoredTax(tax)]),
           RepriceAll(engine, rules.(taxes := rules.taxes[t := tax]), shop.products, Anything()))
  }

  function Effect(engine: Engine, shop: Shop, op: Op): Outcome<Shop> {
    var ps, rules := shop.products, shop.rules;
    match op
    case NewProduct(p) => Ok(shop.(products := ps + [StoredProduct(p.(manual := false, history := []))]))
    case SetInputs(id, u) => if id >= |ps| then Err(NotFound) else Single(shop, id, WithInputs(engine, rules, ps[id], u))
    case ApplyCosts(lines) => Many(shop, rules, WithCosts(engine, rules, ps, lines))
    case SetFormula(id, f) =>
      if !engine.valid(f) then Err(Validation)
      else if id >= |ps| then Err(NotFound)
      else Single(shop, id, WithFormula(engine, rules, ps[id], f))
    case ClearFormula(id) => if id >= |ps| then Err(NotFound) else Single(shop, id, Ok(ps[id].(formula := None)))
    case SetManual(id, price) => if id >= |ps| then Err(NotFound) else Single(shop, id, Ok(WithManual(ps[id], price)))
    case ClearManual(id) => if id >= |ps| then Err(NotFound) else Single(shop, id, WithoutManual(engine, rules, ps[id]))
    case ChangeCategory(id, c) => if id >= |ps| then Err(NotFound) else Single(shop, id, Ok(ps[id].(category := c)))
    case NewTax(tax) => Ok(shop.(rules := rules.(taxes := rules.taxes + [StoredTax(tax)])))
    case ChangeTax(t, rate, surcharge) =>
      if t >= |rules.taxes| then Err(NotFound)
      else WithTax(engine, shop, t, rules.taxes[t].(rate := rate, surchargeRate := surcharge))
    case SetTaxActive(t, active) =>
      if t >= |rules.taxes| then Err(NotFound) else WithTax(engine, shop, t, rules.taxes[t].(active := active))
    case ChangeCategoryPricing(c, pricing) =>
      if c !in rules.categories then Err(NotFound)
      else if pricing.formula.Some? && !engine.valid(pricing.formula.value) then Err(Validation)
      else if exists t :: t in pricing.taxes && t >= |rules.taxes| then Err(Validation)
      else if pricing == rules.categories[c] then Ok(shop)
      else
        Many(shop, rules.(categories := rules.categories[c := StoredCategory(pricing)]),
             RepriceAll(engine, rules.(categories := rules.categories[c := pricing]), ps, InCategory(c)))
    case ChangeShopFormula(f) =>
      if !engine.valid(f) then Err(Validation)
      else Many(shop, rules.(formula := f), RepriceAll(engine, rules.(formula := f), ps, Inheriting()))
  }

  function Apply(engine: Engine, shop: Shop, op: Op): Shop {
    var r := Effect(engine, shop, op);
    if r.Ok? then r.value else shop
  }

  function Run(engine: Engine, shop: Shop, ops: seq<Op>): Shop {
    if ops == [] then shop else Apply(engine, Run(engine, shop, ops[..|ops| - 1]), ops[|ops| - 1])
  }

  // What every operation does to every product.

  ghost predicate EndsInPrice(p: Product) {
    p.history != [] ==> p.history[|p.history| - 1].listPrice == p.listPrice
  }

  /** The price a product shows is the automatic one, by the rules as they stand. */
  ghost predicate Computed(engine: Engine, rules: Rules, p: Product) {
    var x := Automatic(engine, rules, p);
    !p.manual && x.Some? && p.listPrice == RetailPrice(x.value)
  }

  /** `fixed` when the owner sets or clears this product's manual price: nothing else touches a manual price, no change
      of price goes unrecorded, and every new price is either the owner's or the one computed from the `given` inputs. */
  ghost predicate Explained(engine: Engine, rules: Rules, given: Inputs, p: Product, q: Product, fixed: bool) {
    && p.history <= q.history && |q.history| <= |p.history| + 1
    && (EndsInPrice(p) ==> EndsInPrice(q))
    && (p.manual && !fixed ==> q.manual && q.listPrice == p.listPrice)
    && (q.listPrice != p.listPrice ==>
          && q.history == p.history + [Entry(q.listPrice, Stored(given.cost))]
          && (q.inputs == given || q.inputs == StoredInputs(given))
          && ((fixed && q.manual) || Computed(engine, rules, q.(inputs := given))))
  }

  /** The cost a receipt brings to one product, if it does. */
  function CostFor(lines: seq<CostLine>, id: nat): Option<Decimal> {
    if lines == [] then None
    else if lines[|lines| - 1].product == id then Some(Received(lines[|lines| - 1]))
    else CostFor(lines[..|lines| - 1], id)
  }

  lemma {:induction false} CostOfLine(lines: seq<CostLine>, id: nat)
    ensures OneEach(lines) ==> forall i :: 0 <= i < |lines| && lines[i].product == id ==> CostFor(lines, id) == Some(Received(lines[i]))
  {
    if lines != [] {
      var front := lines[..|lines| - 1];
      CostOfLine(front, id);
      assert forall i :: 0 <= i < |front| ==> front[i] == lines[i];
    }
  }

  /** The inputs and the rules an operation computes with, before they are stored. */
  function GivenInputs(p: Product, op: Op, id: nat): Inputs {
    if op.SetInputs? && op.id == id then Updated(p.inputs, op.update)
    else if op.ApplyCosts? && CostFor(op.lines, id).Some? then p.inputs.(cost := CostFor(op.lines, id).value)
    else p.inputs
  }

  function GivenRules(rules: Rules, op: Op): Rules {
    match op
    case ChangeTax(t, rate, surcharge) =>
      if t < |rules.taxes| then
        rules.(taxes := rules.taxes[t := rules.taxes[t].(rate := rate, surchargeRate := surcharge)]) else rules
    case SetTaxActive(t, active) =>
      if t < |rules.taxes| then rules.(taxes := rules.taxes[t := rules.taxes[t].(active := active)]) else rules
    case ChangeCategoryPricing(c, pricing) => rules.(categories := rules.categories[c := pricing])
    case ChangeShopFormula(f) => rules.(formula := f)
    case _ => rules
  }

  predicate Fixes(op: Op, id: nat) {
    (op.SetManual? || op.ClearManual?) && op.id == id
  }

  lemma RecordedIsExplained(engine: Engine, rules: Rules, p: Product, q: Product, fixed: bool)
    requires q.history == p.history && q.listPrice == p.listPrice && (q.manual == p.manual || fixed)
    ensures var r := RepricedAndRecorded(engine, rules, q);
            r.Ok? ==>
              && Explained(engine, rules, q.inputs, p, r.value, fixed)
              && Explained(engine, rules, q.inputs, p, StoredProduct(r.value), fixed)
              && EndsInPrice(r.value) && (!r.value.manual ==> Computed(engine, rules, r.value))
  {
    hide StoredInputs, Stored;
    var r := Repriced(engine, rules, q);
    if r.Ok? {
      AutomaticIgnoresPrice(engine, rules, q, Recorded(r.value));
      assert StoredProduct(Recorded(r.value)).(inputs := q.inputs) == Recorded(r.value);
    }
  }

  /** A price depends on neither the price before it nor the history. */
  lemma AutomaticIgnoresPrice(engine: Engine, rules: Rules, p: Product, q: Product)
    requires q == p.(listPrice := q.listPrice, history := q.history)
    ensures Automatic(engine, rules, p) == Automatic(engine, rules, q)
  {}

  lemma {:induction false} RepriceAllIsExplained(engine: Engine, rules: Rules, products: seq<Product>, selected: Product -> bool)
    ensures var r := RepriceAll(engine, rules, products, selected);
            r.Ok? ==> |r.value| == |products|
                      && forall i :: 0 <= i < |products| ==>
                           Explained(engine, rules, products[i].inputs, products[i], r.value[i], false)
  {
    hide RepricedAndRecorded, Explained;
    if products != [] && RepriceAll(engine, rules, products, selected).Ok? {
      var front, p := products[..|products| - 1], products[|products| - 1];
      RepriceAllIsExplained(engine, rules, front, selected);
      RecordedIsExplained(engine, rules, p, p, false);
      UnchangedIsExplained(engine, rules, p.inputs, p, false);
      var r := RepriceAll(engine, rules, products, selected).value;
      forall i | 0 <= i < |products| ensures Explained(engine, rules, products[i].inputs, products[i], r[i], false) {
        assert i < |front| ==> front[i] == products[i];
      }
    }
  }

  lemma UnchangedIsExplained(engine: Engine, rules: Rules, given: Inputs, p: Product, fixed: bool)
    ensures Explained(engine, rules, given, p, p, fixed)
  {}

  lemma {:induction false} CostAllTouchesOnce(engine: Engine, rules: Rules, products: seq<Product>, lines: seq<CostLine>)
    requires OneEach(lines) && forall i :: 0 <= i < |lines| ==> lines[i].product < |products|
    ensures var r := CostAll(engine, rules, products, lines);
            r.Ok? ==>
              && (forall i :: 0 <= i < |lines| ==>
                    WithCost(engine, rules, products[lines[i].product], Received(lines[i])) == Ok(r.value[lines[i].product]))
              && (forall id :: 0 <= id < |products| && (forall i :: 0 <= i < |lines| ==> lines[i].product != id) ==>
                    r.value[id] == products[id])
  {
    hide WithCost;
    if lines != [] && CostAll(engine, rules, products, lines).Ok? {
      var front, line := lines[..|lines| - 1], lines[|lines| - 1];
      CostAllTouchesOnce(engine, rules, products, front);
      var now := CostAll(engine, rules, products, front).value;
      assert forall i :: 0 <= i < |front| ==> front[i] == lines[i] && front[i].product != line.product;
      assert now[line.product] == products[line.product];
    }
  }

  lemma CostIsExplained(engine: Engine, rules: Rules, p: Product, received: Decimal)
    ensures var r := WithCost(engine, rules, p, received);
            r.Ok? ==> Explained(engine, rules, p.inputs.(cost := received), p, r.value, false) && r.value.inputs.cost == received
  {
    RecordedIsExplained(engine, rules, p, p.(inputs := p.inputs.(cost := received)), false);
  }

  lemma CostsAreExplained(engine: Engine, shop: Shop, op: Op)
    requires op.ApplyCosts?
    ensures var r := WithCosts(engine, shop.rules, shop.products, op.lines);
            r.Ok? ==> |r.value| == |shop.products|
                      && forall i: nat :: i < |shop.products| ==>
                           Explained(engine, shop.rules, GivenInputs(shop.products[i], op, i), shop.products[i], r.value[i], false)
  {
    hide Explained, WithCost, OneEach;
    var lines := op.lines;
    var r := WithCosts(engine, shop.rules, shop.products, lines);
    if r.Ok? {
      CostAllTouchesOnce(engine, shop.rules, shop.products, lines);
      forall id: nat | id < |shop.products|
        ensures Explained(engine, shop.rules, GivenInputs(shop.products[id], op, id), shop.products[id], r.value[id], false)
      {
        CostOfLine(lines, id);
        if i :| 0 <= i < |lines| && lines[i].product == id {
          CostIsExplained(engine, shop.rules, shop.products[id], Received(lines[i]));
        } else {
          UnchangedIsExplained(engine, shop.rules, GivenInputs(shop.products[id], op, id), shop.products[id], false);
        }
      }
    }
  }

  predicate OnOne(op: Op) {
    op.SetInputs? || op.SetFormula? || op.ClearFormula? || op.SetManual? || op.ClearManual? || op.ChangeCategory?
  }

  /** The operations on one product. */
  lemma OneIsExplained(engine: Engine, shop: Shop, op: Op)
    requires OnOne(op) && op.id < |shop.products|
    ensures var after := Apply(engine, shop, op);
            && after.rules == shop.rules && |after.products| == |shop.products|
            && (forall i: nat :: i < |shop.products| && i != op.id ==> after.products[i] == shop.products[i])
            && Explained(engine, shop.rules, GivenInputs(shop.products[op.id], op, op.id), shop.products[op.id],
                         after.products[op.id], Fixes(op, op.id))
  {
    hide RepricedAndRecorded, StoredInputs, Stored;
    var p := shop.products[op.id];
    match op
    case SetInputs(_, u) => RecordedIsExplained(engine, shop.rules, p, p.(inputs := Updated(p.inputs, u)), false);
    case SetFormula(_, f) => RecordedIsExplained(engine, shop.rules, p, p.(formula := Some(f)), false);
    case ClearManual(_) => RecordedIsExplained(engine, shop.rules, p, p.(manual := false), true);
    case _ =>
  }

  /** Every operation, on every product there was: no manual price is touched but by its owner, no change of price is
      missing from the history, and every price is the owner's or the one computed from what was given. */
  lemma {:induction false} EveryStepIsExplained(engine: Engine, shop: Shop, op: Op, id: nat)
    requires id < |shop.products|
    ensures var after := Apply(engine, shop, op);
            && id < |after.products|
            && Explained(engine, GivenRules(shop.rules, op), GivenInputs(shop.products[id], op, id), shop.products[id],
                         after.products[id], Fixes(op, id))
  {
    hide Explained, RepriceAll, WithCosts, Repriced, Automatic, WithInputs, StoredProduct, StoredTax, StoredCategory;
    var p, rules := shop.products[id], GivenRules(shop.rules, op);
    UnchangedIsExplained(engine, rules, GivenInputs(p, op, id), p, Fixes(op, id));
    if op.ApplyCosts? {
      CostsAreExplained(engine, shop, op);
    } else if OnOne(op) {
      if op.id < |shop.products| { OneIsExplained(engine, shop, op); }
    } else {
      RepriceAllIsExplained(engine, rules, shop.products, Anything());
      if op.ChangeCategoryPricing? { RepriceAllIsExplained(engine, rules, shop.products, InCategory(op.categoryId)); }
      RepriceAllIsExplained(engine, rules, shop.products, Inheriting());
    }
  }

  // What six decimals keep.

  function StoredUpdate(u: Update): Update {
    Update(StoredOption(u.cost), StoredOption(u.taxRate), StoredOption(u.surchargeRate),
           if u.marginRate.Some? then Some(StoredOption(u.marginRate.value)) else None,
           if u.marginAmount.Some? then Some(StoredOption(u.marginAmount.value)) else None, u.taxes)
  }

  /** Every number in the request has six decimals. */
  ghost predicate FineEnough(op: Op) {
    match op
    case SetInputs(_, u) => StoredUpdate(u) == u
    case ChangeTax(_, rate, surcharge) => AtScale(rate) && AtScale(surcharge)
    case ChangeCategoryPricing(_, pricing) => StoredCategory(pricing) == pricing
    case _ => true
  }

  ghost predicate InputsStored(p: Product) { StoredInputs(p.inputs) == p.inputs }

  /** All that the database holds has six decimals. */
  ghost predicate AllStored(shop: Shop) {
    && (forall i :: 0 <= i < |shop.products| ==> InputsStored(shop.products[i]))
    && (forall t :: 0 <= t < |shop.rules.taxes| ==> StoredTax(shop.rules.taxes[t]) == shop.rules.taxes[t])
    && (forall c :: c in shop.rules.categories ==> StoredCategory(shop.rules.categories[c]) == shop.rules.categories[c])
  }

  lemma InputsAreStored(a: Inputs)
    ensures StoredInputs(StoredInputs(a)) == StoredInputs(a)
  {
    hide Stored;
    StoredIsAtScale(a.cost);
    StoredIsAtScale(a.taxRate);
    StoredIsAtScale(a.surchargeRate);
    OptionIsStored(a.marginRate);
    OptionIsStored(a.marginAmount);
  }

  lemma OptionIsStored(o: Option<Decimal>)
    ensures StoredOption(StoredOption(o)) == StoredOption(o)
  {
    hide Stored;
    if o.Some? { StoredIsAtScale(o.value); }
  }

  /** When every number in the request has six decimals, a new price that is not the owner's is the automatic price of
      the row as it stands afterwards. */
  lemma PriceMatchesRow(engine: Engine, shop: Shop, op: Op, id: nat)
    requires AllStored(shop) && id < |shop.products| && FineEnough(op)
    ensures var after := Apply(engine, shop, op);
            && id < |after.products|
            && (after.products[id].listPrice != shop.products[id].listPrice ==>
                  (Fixes(op, id) && after.products[id].manual) || Computed(engine, after.rules, after.products[id]))
  {
    hide RepriceAll, WithCosts, Repriced, Automatic, Stored, EndsInPrice;
    var p, q := shop.products[id], Apply(engine, shop, op).products;
    EveryStepIsExplained(engine, shop, op, id);
    GivenIsStored(shop.rules, p, op, id);
    if q[id].listPrice != p.listPrice {
      RulesAreGiven(engine, shop, op);
      assert q[id].(inputs := GivenInputs(p, op, id)) == q[id];
    }
  }

  lemma GivenIsStored(rules: Rules, p: Product, op: Op, id: nat)
    requires InputsStored(p) && FineEnough(op)
    ensures StoredInputs(GivenInputs(p, op, id)) == GivenInputs(p, op, id)
  {
    hide Stored;
    if op.ApplyCosts? { CostForIsStored(op.lines, id); }
  }

  lemma {:induction false} CostForIsStored(lines: seq<CostLine>, id: nat)
    ensures CostFor(lines, id).Some? ==> AtScale(CostFor(lines, id).value)
  {
    hide Stored, AtScale;
    if lines != [] {
      CostForIsStored(lines[..|lines| - 1], id);
      var line := lines[|lines| - 1];
      WholeIsStored(Quantize(line.unitCost / line.factor));
    }
  }

  /** An accepted operation leaves the rules it computed with, when they have six decimals. */
  lemma RulesAreGiven(engine: Engine, shop: Shop, op: Op)
    requires AllStored(shop) && FineEnough(op) && Apply(engine, shop, op) != shop && !op.NewTax?
    ensures Apply(engine, shop, op).rules == GivenRules(shop.rules, op)
  {
    hide RepriceAll, WithCosts, Stored, Repriced;
  }

  /** A cost of seven decimals: the price is computed from it, the row keeps six of them, and the automatic price of the
      row is five cents lower. Saving the same cost again adds to the history. */
  lemma TooFineACost(engine: Engine)
    requires forall v: Variables :: engine.evaluate(1, v) == Some(v.cost)
    ensures var start := Product(Inputs(0.0, 0.0, 0.0, None, None, {}), None, None, 0, false, []);
            var save := SetInputs(0, Update(Some(1.0000001), None, None, None, None, None));
            var once := Apply(engine, Shop([start], Rules(map[], [], 1)), save);
            var twice := Apply(engine, once, save);
            && once.products[0].listPrice == 1_050_000 && once.products[0].inputs.cost == 1.0
            && Automatic(engine, once.rules, once.products[0]) == Some(1.0) && RetailPrice(1.0) == 1_000_000
            && |once.products[0].history| == 1 && |twice.products[0].history| == 2
  {
    assert (1.0000001 * 1000000.0 + 0.5).Floor == 1000000;
    assert (0.0 * 1000000.0 + 0.5).Floor == 0;
    assert -(-(1.0000001 / 0.05)).Floor == 21;
    assert -(-(1.0 / 0.05)).Floor == 20;
  }

  // Whole runs.

  ghost predicate AllEndInPrice(shop: Shop) {
    forall i :: 0 <= i < |shop.products| ==> EndsInPrice(shop.products[i])
  }

  lemma ApplyGrows(engine: Engine, shop: Shop, op: Op)
    requires AllEndInPrice(shop)
    ensures |Apply(engine, shop, op).products| >= |shop.products| && AllEndInPrice(Apply(engine, shop, op))
  {
    hide EndsInPrice;
    var after := Apply(engine, shop, op);
    forall i: nat | i < |shop.products| ensures i < |after.products| && EndsInPrice(after.products[i]) {
      EveryStepIsExplained(engine, shop, op, i);
      assert EndsInPrice(shop.products[i]);
    }
    AtLeast(engine, shop, op);
  }

  lemma AtLeast(engine: Engine, shop: Shop, op: Op)
    ensures var after := Apply(engine, shop, op);
            && |after.products| >= |shop.products|
            && (forall i :: |shop.products| <= i < |after.products| ==> EndsInPrice(after.products[i]))
  {
    hide WithCosts, RepriceAll, Repriced, Automatic;
    if op.ApplyCosts? { CostsAreExplained(engine, shop, op); }
    var rules := GivenRules(shop.rules, op);
    RepriceAllIsExplained(engine, rules, shop.products, Anything());
    RepriceAllIsExplained(engine, rules, shop.products, Inheriting());
    if op.ChangeCategoryPricing? { RepriceAllIsExplained(engine, rules, shop.products, InCategory(op.categoryId)); }
  }

  /** After any run a product's history, if it has one, ends in the price it shows. */
  lemma {:induction false} HistoryEndsInPrice(engine: Engine, rules: Rules, ops: seq<Op>)
    ensures AllEndInPrice(Run(engine, Shop([], rules), ops))
  {
    hide Apply;
    if ops != [] {
      HistoryEndsInPrice(engine, rules, ops[..|ops| - 1]);
      ApplyGrows(engine, Run(engine, Shop([], rules), ops[..|ops| - 1]), ops[|ops| - 1]);
    }
  }

  lemma {:induction false} RepriceAllKeepsInputs(engine: Engine, rules: Rules, products: seq<Product>, selected: Product -> bool)
    ensures var r := RepriceAll(engine, rules, products, selected);
            r.Ok? ==> |r.value| == |products| && forall i :: 0 <= i < |products| ==> r.value[i].inputs == products[i].inputs
  {
    hide Automatic;
    if products != [] { RepriceAllKeepsInputs(engine, rules, products[..|products| - 1], selected); }
  }

  lemma CostStores(engine: Engine, rules: Rules, p: Product, line: CostLine)
    requires InputsStored(p)
    ensures var r := WithCost(engine, rules, p, Received(line)); r.Ok? ==> InputsStored(r.value)
  {
    hide Automatic, Stored, AtScale;
    WholeIsStored(Quantize(line.unitCost / line.factor));
    StoredOfScale(Received(line));
  }

  lemma {:induction false} CostAllStores(engine: Engine, rules: Rules, products: seq<Product>, lines: seq<CostLine>)
    requires forall i :: 0 <= i < |lines| ==> lines[i].product < |products|
    requires forall i :: 0 <= i < |products| ==> InputsStored(products[i])
    ensures var r := CostAll(engine, rules, products, lines);
            r.Ok? ==> forall i :: 0 <= i < |products| ==> InputsStored(r.value[i])
  {
    hide InputsStored, WithCost;
    if lines != [] {
      var front, line := lines[..|lines| - 1], lines[|lines| - 1];
      CostAllStores(engine, rules, products, front);
      var now := CostAll(engine, rules, products, front);
      if now.Ok? { CostStores(engine, rules, now.value[line.product], line); }
    }
  }

  lemma CostsStore(engine: Engine, shop: Shop, lines: seq<CostLine>)
    requires forall i :: 0 <= i < |shop.products| ==> InputsStored(shop.products[i])
    ensures var r := WithCosts(engine, shop.rules, shop.products, lines);
            r.Ok? ==> forall i :: 0 <= i < |r.value| ==> InputsStored(r.value[i])
  {
    hide InputsStored, OneEach, Stale;
    if CostsRefusal(shop.products, lines).None? { CostAllStores(engine, shop.rules, shop.products, lines); }
  }

  lemma StepStores(engine: Engine, shop: Shop, op: Op)
    requires AllStored(shop)
    ensures AllStored(Apply(engine, shop, op))
  {
    hide Stored, RepriceAll, WithCosts, RepricedAndRecorded, StoredTax, StoredCategory, StoredInputs;
    match op
    case NewProduct(p) => InputsAreStored(p.inputs);
    case SetInputs(id, u) =>
      if id < |shop.products| { InputsAreStored(Updated(shop.products[id].inputs, u)); RecordedKeepsInputs(engine, shop, op); }
    case ApplyCosts(lines) => CostsStore(engine, shop, lines);
    case NewTax(tax) => TaxIsStored(tax);
    case ChangeTax(t, rate, surcharge) =>
      if t < |shop.rules.taxes| { TaxStores(engine, shop, t, shop.rules.taxes[t].(rate := rate, surchargeRate := surcharge)); }
    case SetTaxActive(t, active) =>
      if t < |shop.rules.taxes| { TaxStores(engine, shop, t, shop.rules.taxes[t].(active := active)); }
    case ChangeCategoryPricing(c, pricing) =>
      CategoryIsStored(pricing);
      RepriceAllKeepsInputs(engine, GivenRules(shop.rules, op), shop.products, InCategory(c));
    case ChangeShopFormula(f) => RepriceAllKeepsInputs(engine, GivenRules(shop.rules, op), shop.products, Inheriting());
    case _ => RecordedKeepsInputs(engine, shop, op);
  }

  lemma RecordedKeepsInputs(engine: Engine, shop: Shop, op: Op)
    ensures forall p :: var r := RepricedAndRecorded(engine, shop.rules, p); r.Ok? ==> r.value.inputs == p.inputs
  {
    hide Automatic;
  }

  lemma TaxIsStored(tax: Tax)
    ensures StoredTax(StoredTax(tax)) == StoredTax(tax)
  {
    hide Stored;
    StoredIsAtScale(tax.rate);
    StoredIsAtScale(tax.surchargeRate);
  }

  lemma CategoryIsStored(c: Category)
    ensures StoredCategory(StoredCategory(c)) == StoredCategory(c)
  {
    OptionIsStored(c.marginRate);
    OptionIsStored(c.marginAmount);
  }

  lemma TaxStores(engine: Engine, shop: Shop, t: nat, tax: Tax)
    requires AllStored(shop) && t < |shop.rules.taxes|
    ensures WithTax(engine, shop, t, tax).Ok? ==> AllStored(WithTax(engine, shop, t, tax).value)
  {
    hide Stored, RepriceAll, StoredTax, StoredCategory, StoredInputs;
    TaxIsStored(tax);
    RepriceAllKeepsInputs(engine, shop.rules.(taxes := shop.rules.taxes[t := tax]), shop.products, Anything());
  }

  /** Every run of a shop whose rules are stored leaves everything stored. */
  lemma {:induction false} RunStores(engine: Engine, rules: Rules, ops: seq<Op>)
    requires AllStored(Shop([], rules))
    ensures AllStored(Run(engine, Shop([], rules), ops))
  {
    hide Apply, AllStored;
    if ops != [] {
      RunStores(engine, rules, ops[..|ops| - 1]);
      StepStores(engine, Run(engine, Shop([], rules), ops[..|ops| - 1]), ops[|ops| - 1]);
    }
  }

  /** While nobody sets or clears a product's manual price, no cost, tax, margin, formula, category, receipt or shop
      change moves it; and no run ever rewrites its history. */
  lemma {:induction false} ManualPriceStays(engine: Engine, shop: Shop, ops: seq<Op>, id: nat)
    requires id < |shop.products| && shop.products[id].manual
    requires forall i :: 0 <= i < |ops| ==> !Fixes(ops[i], id)
    ensures var after := Run(engine, shop, ops);
            && id < |after.products|
            && after.products[id].manual && after.products[id].listPrice == shop.products[id].listPrice
            && shop.products[id].history <= after.products[id].history
  {
    hide Apply;
    if ops != [] {
      ManualPriceStays(engine, shop, ops[..|ops| - 1], id);
      EveryStepIsExplained(engine, Run(engine, shop, ops[..|ops| - 1]), ops[|ops| - 1], id);
    }
  }

  lemma CostIsSet(engine: Engine, rules: Rules, p: Product, received: Decimal)
    ensures WithCost(engine, rules, p, received).Ok? ==> WithCost(engine, rules, p, received).value.inputs.cost == received
  {
    hide Automatic, Stored;
  }

  lemma SameReceived(line: CostLine, again: CostLine)
    requires again == line.(expected := again.expected)
    ensures Received(again) == Received(line)
  {}

  /** Confirming a receipt's costs a second time does nothing, whatever cost the second request expects. */
  lemma {:induction false} ReapplyingCostsIsNoOp(engine: Engine, shop: Shop, lines: seq<CostLine>, again: seq<CostLine>)
    requires Effect(engine, shop, ApplyCosts(lines)).Ok? && |again| == |lines|
    requires forall i :: 0 <= i < |lines| ==> again[i] == lines[i].(expected := again[i].expected)
    ensures var after := Effect(engine, shop, ApplyCosts(lines)).value;
            Effect(engine, after, ApplyCosts(again)) == Ok(after)
  {
    hide WithCost, Stale, Received;
    var after := Effect(engine, shop, ApplyCosts(lines)).value;
    CostAllTouchesOnce(engine, shop.rules, shop.products, lines);
    forall i | 0 <= i < |again| ensures after.products[again[i].product].inputs.cost == Received(again[i]) {
      SameReceived(lines[i], again[i]);
      CostIsSet(engine, shop.rules, shop.products[lines[i].product], Received(lines[i]));
    }
    NothingToCost(engine, after, again);
    NoneIsStale(after.products, again);
  }

  /** Saving the same inputs again changes nothing exactly when every number in the request has six decimals; otherwise
      the stored number differs from the given one, and the price is recorded once more. */
  lemma SavingAgainIsNoOp(engine: Engine, shop: Shop, id: nat, u: Update)
    requires Effect(engine, shop, SetInputs(id, u)).Ok? && InputsStored(shop.products[id])
    ensures var after := Effect(engine, shop, SetInputs(id, u)).value;
            Effect(engine, after, SetInputs(id, u)) == Ok(after) <==> StoredUpdate(u) == u
  {
    hide Stored, Automatic;
    var p, after := shop.products[id], Effect(engine, shop, SetInputs(id, u)).value;
    var q := after.products[id];
    assert q.inputs == StoredInputs(Updated(p.inputs, u)) by {
      if Updated(p.inputs, u) == p.inputs { assert q == p; }
    }
    StoredAgain(p.inputs, u);
    if Updated(q.inputs, u) == q.inputs {
      assert after.products[id := q] == after.products;
    } else {
      var r := WithInputs(engine, after.rules, q, u);
      assert r.Ok? ==> |r.value.history| == |q.history| + 1;
    }
  }

  lemma StoredAgain(a: Inputs, u: Update)
    ensures Updated(StoredInputs(Updated(a, u)), u) == StoredInputs(Updated(a, u)) <==> StoredUpdate(u) == u
  {
    hide Stored;
  }

  lemma NoneIsStale(products: seq<Product>, lines: seq<CostLine>)
    requires forall i :: 0 <= i < |lines| ==>
               lines[i].product < |products| && products[lines[i].product].inputs.cost == Received(lines[i])
    ensures forall i :: 0 <= i < |lines| ==> !Stale(products, lines[i])
  {}

  lemma {:induction false} NothingToCost(engine: Engine, shop: Shop, lines: seq<CostLine>)
    requires forall i :: 0 <= i < |lines| ==>
               lines[i].product < |shop.products| && shop.products[lines[i].product].inputs.cost == Received(lines[i])
    ensures CostAll(engine, shop.rules, shop.products, lines) == Ok(shop.products)
  {
    if lines != [] {
      var line := lines[|lines| - 1];
      NothingToCost(engine, shop, lines[..|lines| - 1]);
      assert shop.products[line.product := shop.products[line.product]] == shop.products;
    }
  }

  // The service.

  class PriceBook {
    var products: seq<Product>
    var rules: Rules
    const engine: Engine

    ghost function State(): Shop reads this { Shop(products, rules) }

    constructor (engine: Engine, rules: Rules)
      ensures State() == Shop([], rules) && this.engine == engine
    {
      this.engine, this.rules, products := engine, rules, [];
    }

    method SetPricingInputs(id: nat, u: Update) returns (error: Option<Error>)
      modifies this`products
      ensures match Effect(engine, old(State()), SetInputs(id, u))
              case Err(e) => error == Some(e) && State() == old(State())
              case Ok(after) => error == None && State() == after
    {
      if id >= |products| { return Some(NotFound); }
      if u.taxes.Some? && exists t :: t in u.taxes.value && t >= |rules.taxes| { return Some(Validation); }
      var p := products[id];
      p := p.(inputs := Updated(p.inputs, u));
      if p.inputs == products[id].inputs { assert p == products[id]; return None; }
      var r := Repriced(engine, rules, p);
      if r.Err? { return Some(r.error); }
      products := products[id := StoredProduct(Recorded(r.value))];
      return None;
    }

    method FixPrice(id: nat, price: Decimal) returns (error: Option<Error>)
      modifies this`products
      ensures error.Some? <==> id >= |old(products)|
      ensures error.None? ==>
                && |products| == |old(products)| && products == old(products)[id := products[id]]
                && EndsInPrice(products[id])
                && products[id].manual && products[id].listPrice == StoredMicro(price)
                && Explained(engine, rules, old(products)[id].inputs, old(products)[id], products[id], true)
      ensures match Effect(engine, old(State()), SetManual(id, price))
              case Err(e) => error == Some(e) && State() == old(State())
              case Ok(after) => error == None && State() == after
    {
      if id >= |products| { return Some(NotFound); }
      OneIsExplained(engine, State(), SetManual(id, price));
      var p := products[id].(formula := None, listPrice := StoredMicro(price), manual := true);
      products := products[id := Recorded(p)];
      return None;
    }

    /** Recompute a selection of products; the caller rolls back when one of them fails. */
    method Recompute(selected: Product -> bool) returns (error: Option<Error>)
      modifies this`products
      ensures match RepriceAll(engine, rules, old(products), selected)
              case Err(e) => error == Some(e) && products == old(products)
              case Ok(after) => error == None && products == after
    {
      hide Repriced;
      var before := products;
      for i := 0 to |before|
        invariant |products| == |before| && forall j :: i <= j < |before| ==> products[j] == before[j]
        invariant RepriceAll(engine, rules, before[..i], selected) == Ok(products[..i])
      {
        assert before[..i + 1][..i] == before[..i];
        var p := products[i];
        if selected(p) && !p.manual {
          var r := Repriced(engine, rules, p);
          if r.Err? {
            RepriceStops(engine, rules, before, selected, i + 1);
            products := before;
            return Some(r.error);
          }
          products := products[i := Recorded(r.value)];
        }
        assert products[..i + 1] == products[..i] + [products[i]];
      }
      assert before[..|before|] == before && products[..|before|] == products;
      return None;
    }

    method CheckExpectations(lines: seq<CostLine>) returns (error: Option<Error>)
      ensures error == CostsRefusal(products, lines)
      ensures error.None? ==> forall i :: 0 <= i < |lines| ==> lines[i].product < |products|
    {
      if !OneEach(lines) { return Some(Validation); }
      if exists i :: 0 <= i < |lines| && lines[i].product >= |products| { return Some(NotFound); }
      for i := 0 to |lines|
        invariant forall j :: 0 <= j < i ==> !Stale(products, lines[j])
      {
        if Stale(products, lines[i]) { return Some(Conflict); }
      }
      return None;
    }

    /** Check every expectation first, then write the costs one by one. */
    method ApplyReceivedCosts(lines: seq<CostLine>) returns (error: Option<Error>)
      modifies this`products
      ensures match Effect(engine, old(State()), ApplyCosts(lines))
              case Err(e) => error == Some(e) && State() == old(State())
              case Ok(after) => error == None && State() == after
    {
      hide WithCost, CostsRefusal, OneEach, Stale;
      error := CheckExpectations(lines);
      if error.Some? { return; }
      var before := products;
      for i := 0 to |lines|
        invariant |products| == |before|
        invariant CostAll(engine, rules, before, lines[..i]) == Ok(products)
      {
        assert lines[..i + 1][..i] == lines[..i];
        var r := WithCost(engine, rules, products[lines[i].product], Received(lines[i]));
        if r.Err? {
          CostsStop(engine, rules, before, lines, i + 1);
          products := before;
          return Some(r.error);
        }
        products := products[lines[i].product := r.value];
      }
      assert lines[..|lines|] == lines;
      return None;
    }
  }

  lemma {:induction false} RepriceStops(engine: Engine, rules: Rules, products: seq<Product>, selected: Product -> bool, n: nat)
    requires n <= |products| && RepriceAll(engine, rules, products[..n], selected).Err?
    ensures RepriceAll(engine, rules, products, selected) == RepriceAll(engine, rules, products[..n], selected)
  {
    if n < |products| {
      assert products[..|products| - 1][..n] == products[..n];
      RepriceStops(engine, rules, products[..|products| - 1], selected, n);
    } else {
      assert products[..n] == products;
    }
  }

  lemma {:induction false} CostsStop(engine: Engine, rules: Rules, products: seq<Product>, lines: seq<CostLine>, n: nat)
    requires forall i :: 0 <= i < |lines| ==> lines[i].product < |products|
    requires n <= |lines| && CostAll(engine, rules, products, lines[..n]).Err?
    ensures CostAll(engine, rules, products, lines) == CostAll(engine, rules, products, lines[..n])
  {
    if n < |lines| {
      assert lines[..|lines| - 1][..n] == lines[..n];
      CostsStop(engine, rules, products, lines[..|lines| - 1], n);
    } else {
      assert lines[..n] == lines;
    }
  }
}
