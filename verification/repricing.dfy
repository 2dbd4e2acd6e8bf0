/** Who gets a new price when inputs or rules change, what that price is made of, and when the change is refused. */
module Repricing {
  import opened Money
  import opened Pricing
  import opened Sums

  ghost predicate Changes<T(!new)>(given: Option<T>, current: T) { given.Some? && given.value != current }

  /** The operation changes what this product's price is computed from, or asks for a new price. */
  ghost predicate Affected(shop: Shop, op: Op, id: nat)
    requires id < |shop.products|
  {
    var p, rules := shop.products[id], shop.rules;
    var a := p.inputs;
    match op
    case SetInputs(i, u) =>
      i == id && (Changes(u.cost, a.cost) || Changes(u.taxRate, a.taxRate) || Changes(u.surchargeRate, a.surchargeRate)
                  || Changes(u.marginRate, a.marginRate) || Changes(u.marginAmount, a.marginAmount) || Changes(u.taxes, a.taxes))
    case ApplyCosts(lines) => exists k :: 0 <= k < |lines| && lines[k].product == id && Received(lines[k]) != a.cost
    case SetFormula(i, _) => i == id
    case ClearManual(i) => i == id
    case ChangeTax(t, rate, surcharge) =>
      !p.manual && t < |rules.taxes| && (rules.taxes[t].rate != rate || rules.taxes[t].surchargeRate != surcharge)
    case SetTaxActive(t, active) => !p.manual && t < |rules.taxes| && rules.taxes[t].active != active
    case ChangeCategoryPricing(c, pricing) =>
      !p.manual && p.category == Some(c) && c in rules.categories && rules.categories[c] != pricing
    case ChangeShopFormula(_) => !p.manual && p.formula.None?
    case _ => false
  }

  /** The product with what the operation sets of it, its price not yet computed again. */
  ghost function Revised(p: Product, op: Op, id: nat): Product {
    match op
    case SetInputs(i, u) =>
      if i != id then p
      else
        var a := p.inputs;
        p.(inputs := Inputs(if u.cost.Some? then u.cost.value else a.cost,
                            if u.taxRate.Some? then u.taxRate.value else a.taxRate,
                            if u.surchargeRate.Some? then u.surchargeRate.value else a.surchargeRate,
                            if u.marginRate.Some? then u.marginRate.value else a.marginRate,
                            if u.marginAmount.Some? then u.marginAmount.value else a.marginAmount,
                            if u.taxes.Some? then u.taxes.value else a.taxes))
    case ApplyCosts(lines) =>
      if exists k :: 0 <= k < |lines| && lines[k].product == id then
        var k :| 0 <= k < |lines| && lines[k].product == id;
        p.(inputs := p.inputs.(cost := Received(lines[k])))
      else p
    case SetFormula(i, f) => if i == id then p.(formula := Some(f)) else p
    case ClearFormula(i) => if i == id then p.(formula := None) else p
    case SetManual(i, price) => if i == id then p.(formula := None, listPrice := StoredMicro(price), manual := true) else p
    case ClearManual(i) => if i == id then p.(manual := false) else p
    case ChangeCategory(i, c) => if i == id then p.(category := c) else p
    case _ => p
  }

  /** One more line of history, and a fresh price unless the owner fixed it; nothing else. */
  ghost predicate NewPrice(engine: Engine, rules: Rules, s: Product, q: Product) {
    && q == s.(listPrice := q.listPrice, history := s.history + [Entry(q.listPrice, Stored(s.inputs.cost))])
    && if s.manual then q.listPrice == s.listPrice else Computed(engine, rules, q)
  }

  lemma RepricedMeaning(engine: Engine, rules: Rules, s: Product)
    ensures var r := RepricedAndRecorded(engine, rules, s);
            && (r.Ok? <==> s.manual || Automatic(engine, rules, s).Some?)
            && (r.Ok? ==> NewPrice(engine, rules, s, r.value))
  {
    hide Stored;
    var r := RepricedAndRecorded(engine, rules, s);
    if r.Ok? { AutomaticIgnoresPrice(engine, rules, s, r.value); }
  }

  lemma {:induction false} SelectionMeaning(engine: Engine, rules: Rules, products: seq<Product>, selected: Product -> bool)
    ensures var r := RepriceAll(engine, rules, products, selected);
            && (r.Ok? <==> forall i :: 0 <= i < |products| && selected(products[i]) && !products[i].manual ==>
                             Automatic(engine, rules, products[i]).Some?)
            && (r.Ok? ==>
                  && |r.value| == |products|
                  && forall i :: 0 <= i < |products| ==>
                       if selected(products[i]) && !products[i].manual then NewPrice(engine, rules, products[i], r.value[i])
                       else r.value[i] == products[i])
  {
    hide RepricedAndRecorded, NewPrice, Automatic;
    if products != [] {
      var front, p := products[..|products| - 1], products[|products| - 1];
      SelectionMeaning(engine, rules, front, selected);
      RepricedMeaning(engine, rules, p);
      assert products == front + [p];
    }
  }

  /** What the operation made of one product: a new price if it is affected, else what was set of it and no more. */
  ghost predicate Became(engine: Engine, shop: Shop, op: Op, id: nat, q: Product)
    requires id < |shop.products|
  {
    var s := Revised(shop.products[id], op, id);
    if Affected(shop, op, id) then
      && q.inputs == (if op.SetInputs? then StoredInputs(s.inputs) else s.inputs)
      && NewPrice(engine, GivenRules(shop.rules, op), s, q.(inputs := s.inputs))
    else if op.SetManual? && op.id == id then
      q == s.(history := s.history + [Entry(s.listPrice, Stored(s.inputs.cost))])
    else q == s
  }

  /** The affected product can be priced, by the rules and from the inputs as given. */
  ghost predicate Priceable(engine: Engine, shop: Shop, op: Op, id: nat)
    requires id < |shop.products|
  {
    var s := Revised(shop.products[id], op, id);
    Affected(shop, op, id) && !s.manual ==> Automatic(engine, GivenRules(shop.rules, op), s).Some?
  }

  /** What the request has to meet before any price is computed. */
  ghost predicate Allowed(engine: Engine, shop: Shop, op: Op) {
    var ps, rules := shop.products, shop.rules;
    match op
    case SetInputs(id, u) => id < |ps| && (u.taxes.Some? ==> forall t :: t in u.taxes.value ==> t < |rules.taxes|)
    case ApplyCosts(lines) =>
      && (forall i, j :: 0 <= i < j < |lines| ==> lines[i].product != lines[j].product)
      && (forall i :: 0 <= i < |lines| ==> lines[i].product < |ps|)
      && forall i :: 0 <= i < |lines| ==>
           var cost := ps[lines[i].product].inputs.cost; cost == Received(lines[i]) || cost == lines[i].expected
    case SetFormula(id, f) => id < |ps| && engine.valid(f)
    case ClearFormula(id) => id < |ps|
    case SetManual(id, _) => id < |ps|
    case ClearManual(id) => id < |ps|
    case ChangeCategory(id, _) => id < |ps|
    case ChangeTax(t, _, _) => t < |rules.taxes|
    case SetTaxActive(t, _) => t < |rules.taxes|
    case ChangeCategoryPricing(c, pricing) =>
      && c in rules.categories && (pricing.formula.Some? ==> engine.valid(pricing.formula.value))
      && forall t :: t in pricing.taxes ==> t < |rules.taxes|
    case ChangeShopFormula(f) => engine.valid(f)
    case _ => true
  }

  lemma UpdateChanges(a: Inputs, u: Update)
    ensures Updated(a, u) != a <==>
              || Changes(u.cost, a.cost) || Changes(u.taxRate, a.taxRate) || Changes(u.surchargeRate, a.surchargeRate)
              || Changes(u.marginRate, a.marginRate) || Changes(u.marginAmount, a.marginAmount) || Changes(u.taxes, a.taxes)
  {}

  /** The operations on one product. */
  lemma OneBecame(engine: Engine, shop: Shop, op: Op)
    requires OnOne(op) && op.id < |shop.products|
    ensures var r := Effect(engine, shop, op);
            && (r.Ok? <==> Allowed(engine, shop, op) && Priceable(engine, shop, op, op.id))
            && (r.Ok? ==> |r.value.products| == |shop.products| && Became(engine, shop, op, op.id, r.value.products[op.id]))
            && (r.Ok? ==> forall i: nat :: i < |shop.products| && i != op.id ==> r.value.products[i] == shop.products[i])
  {
    hide RepricedAndRecorded, Computed, Automatic, Stored, StoredInputs, Changes;
    var p := shop.products[op.id];
    if op.SetInputs? { UpdateChanges(p.inputs, op.update); }
    var s := Revised(p, op, op.id);
    RepricedMeaning(engine, shop.rules, s);
    var r := RepricedAndRecorded(engine, shop.rules, s);
    assert r.Ok? ==> StoredProduct(r.value).(inputs := s.inputs) == r.value;
  }

  lemma CostBecame(engine: Engine, rules: Rules, p: Product, received: Decimal)
    ensures var r, s := WithCost(engine, rules, p, received), p.(inputs := p.inputs.(cost := received));
            && (r.Ok? <==> received == p.inputs.cost || s.manual || Automatic(engine, rules, s).Some?)
            && (r.Ok? ==> if received == p.inputs.cost then r.value == p else NewPrice(engine, rules, s, r.value))
  {
    hide RepricedAndRecorded, NewPrice, Automatic;
    RepricedMeaning(engine, rules, p.(inputs := p.inputs.(cost := received)));
  }

  /** A receipt's costs stop at the first line whose product cannot be priced. */
  lemma {:induction false} CostAllMeaning(engine: Engine, rules: Rules, products: seq<Product>, lines: seq<CostLine>)
    requires OneEach(lines) && forall i :: 0 <= i < |lines| ==> lines[i].product < |products|
    ensures CostAll(engine, rules, products, lines).Ok? <==>
              forall i :: 0 <= i < |lines| ==> WithCost(engine, rules, products[lines[i].product], Received(lines[i])).Ok?
  {
    hide WithCost, Received;
    if lines != [] {
      var front, line := lines[..|lines| - 1], lines[|lines| - 1];
      CostAllMeaning(engine, rules, products, front);
      CostAllTouchesOnce(engine, rules, products, front);
      assert CostAll(engine, rules, products, front).Ok? ==>
               CostAll(engine, rules, products, front).value[line.product] == products[line.product];
      forall i | 0 <= i < |front| ensures front[i] == lines[i] {}
    }
  }

  lemma CostsBecame(engine: Engine, shop: Shop, op: Op, id: nat)
    requires op.ApplyCosts? && Effect(engine, shop, op).Ok? && id < |shop.products|
    ensures |Effect(engine, shop, op).value.products| == |shop.products|
    ensures Became(engine, shop, op, id, Effect(engine, shop, op).value.products[id])
  {
    hide WithCost, NewPrice, Received, Stale, OneEach, Automatic;
    var p, lines := shop.products[id], op.lines;
    CostAllTouchesOnce(engine, shop.rules, shop.products, lines);
    if i :| 0 <= i < |lines| && lines[i].product == id {
      SameLine(lines, i);
      CostBecame(engine, shop.rules, p, Received(lines[i]));
      NewPriceKeepsInputs(engine, shop.rules, Revised(p, op, id), Effect(engine, shop, op).value.products[id]);
    }
  }

  lemma SameLine(lines: seq<CostLine>, i: nat)
    requires OneEach(lines) && i < |lines|
    ensures forall k :: 0 <= k < |lines| && lines[k].product == lines[i].product ==> k == i
  {}

  lemma CostsAreAccepted(engine: Engine, shop: Shop, op: Op)
    requires op.ApplyCosts?
    ensures Effect(engine, shop, op).Ok? <==>
              Allowed(engine, shop, op) && forall id: nat :: id < |shop.products| ==> Priceable(engine, shop, op, id)
  {
    hide WithCost, Received, Automatic, Computed;
    var lines := op.lines;
    if Allowed(engine, shop, op) {
      CostAllMeaning(engine, shop.rules, shop.products, lines);
      forall i | 0 <= i < |lines|
        ensures WithCost(engine, shop.rules, shop.products[lines[i].product], Received(lines[i])).Ok?
           <==> Priceable(engine, shop, op, lines[i].product)
      {
        SameLine(lines, i);
        CostBecame(engine, shop.rules, shop.products[lines[i].product], Received(lines[i]));
      }
    }
  }

  lemma NewPriceKeepsInputs(engine: Engine, rules: Rules, s: Product, q: Product)
    ensures NewPrice(engine, rules, s, q) ==> q.inputs == s.inputs && q.(inputs := s.inputs) == q
  {}

  predicate OnRules(op: Op) { !OnOne(op) && !op.ApplyCosts? }

  lemma OthersBecame(engine: Engine, shop: Shop, op: Op, id: nat)
    requires OnRules(op) && id < |shop.products| && !Affected(shop, op, id)
    ensures Became(engine, shop, op, id, shop.products[id]) && Priceable(engine, shop, op, id)
  {}

  lemma SelectedBecame(engine: Engine, shop: Shop, op: Op, id: nat, q: Product)
    requires OnRules(op) && id < |shop.products| && Affected(shop, op, id)
    ensures NewPrice(engine, GivenRules(shop.rules, op), shop.products[id], q) ==> Became(engine, shop, op, id, q)
    ensures Priceable(engine, shop, op, id)
       <==> shop.products[id].manual || Automatic(engine, GivenRules(shop.rules, op), shop.products[id]).Some?
  {
    hide NewPrice, Automatic, Affected;
    assert Revised(shop.products[id], op, id) == shop.products[id];
    NewPriceKeepsInputs(engine, GivenRules(shop.rules, op), shop.products[id], q);
  }

  lemma SelectionBecame(engine: Engine, shop: Shop, op: Op, selected: Product -> bool)
    requires OnRules(op)
    requires forall id: nat :: id < |shop.products| ==>
               (Affected(shop, op, id) <==> selected(shop.products[id]) && !shop.products[id].manual)
    ensures var r := RepriceAll(engine, GivenRules(shop.rules, op), shop.products, selected);
            && (r.Ok? <==> forall id: nat :: id < |shop.products| ==> Priceable(engine, shop, op, id))
            && (r.Ok? ==> |r.value| == |shop.products|
                          && forall id: nat :: id < |shop.products| ==> Became(engine, shop, op, id, r.value[id]))
  {
    hide RepriceAll, NewPrice, Automatic, Affected, Became, Priceable;
    var rules := GivenRules(shop.rules, op);
    var r := RepriceAll(engine, rules, shop.products, selected);
    SelectionMeaning(engine, rules, shop.products, selected);
    forall id: nat | id < |shop.products|
      ensures r.Ok? ==> Became(engine, shop, op, id, r.value[id])
      ensures Priceable(engine, shop, op, id)
         <==> (selected(shop.products[id]) && !shop.products[id].manual ==> Automatic(engine, rules, shop.products[id]).Some?)
    {
      if !Affected(shop, op, id) {
        OthersBecame(engine, shop, op, id);
      } else {
        SelectedBecame(engine, shop, op, id, if r.Ok? then r.value[id] else shop.products[id]);
      }
    }
  }

  lemma NobodyBecame(engine: Engine, shop: Shop, op: Op)
    requires OnRules(op) && forall id: nat :: id < |shop.products| ==> !Affected(shop, op, id)
    ensures forall id: nat :: id < |shop.products| ==>
              Became(engine, shop, op, id, shop.products[id]) && Priceable(engine, shop, op, id)
  {
    forall id: nat | id < |shop.products|
      ensures Became(engine, shop, op, id, shop.products[id]) && Priceable(engine, shop, op, id)
    {
      OthersBecame(engine, shop, op, id);
    }
  }

  /** The operations on the rules. */
  lemma RulesBecame(engine: Engine, shop: Shop, op: Op)
    requires OnRules(op)
    ensures var r := Effect(engine, shop, op);
            && (r.Ok? <==>
                  Allowed(engine, shop, op) && forall id: nat :: id < |shop.products| ==> Priceable(engine, shop, op, id))
            && (r.Ok? ==>
                  && |r.value.products| == |shop.products| + (if op.NewProduct? then 1 else 0)
                  && forall id: nat :: id < |shop.products| ==> Became(engine, shop, op, id, r.value.products[id]))
  {
    hide RepriceAll, NewPrice, Automatic, StoredTax, StoredCategory, StoredProduct, Became, Priceable;
    if Allowed(engine, shop, op) {
      if forall id: nat :: id < |shop.products| ==> !Affected(shop, op, id) { NobodyBecame(engine, shop, op); }
      match op
      case ChangeTax(t, rate, surcharge) =>
        if shop.rules.taxes[t].rate != rate || shop.rules.taxes[t].surchargeRate != surcharge {
          SelectionBecame(engine, shop, op, Anything());
        }
      case SetTaxActive(t, active) =>
        if shop.rules.taxes[t].active != active { SelectionBecame(engine, shop, op, Anything()); }
      case ChangeCategoryPricing(c, pricing) =>
        if shop.rules.categories[c] != pricing { SelectionBecame(engine, shop, op, InCategory(c)); }
      case ChangeShopFormula(_) => SelectionBecame(engine, shop, op, Inheriting());
      case _ =>
    }
  }

  /** An operation is refused when the request is, or when one affected product cannot be priced; accepted, it gives every
      affected product, and no other, its new price and one more line of history. */
  lemma WhoIsRepriced(engine: Engine, shop: Shop, op: Op)
    ensures Effect(engine, shop, op).Ok? <==>
              Allowed(engine, shop, op) && forall id: nat :: id < |shop.products| ==> Priceable(engine, shop, op, id)
    ensures Effect(engine, shop, op).Ok? ==>
              var after := Effect(engine, shop, op).value.products;
              && |after| == |shop.products| + (if op.NewProduct? then 1 else 0)
              && forall id: nat :: id < |shop.products| ==> Became(engine, shop, op, id, after[id])
  {
    hide Effect, Allowed, Became, Priceable;
    if OnRules(op) {
      RulesBecame(engine, shop, op);
    } else if op.ApplyCosts? {
      CostsAreAccepted(engine, shop, op);
      if Effect(engine, shop, op).Ok? {
        CostsKeepCount(engine, shop, op);
        forall id: nat | id < |shop.products| ensures Became(engine, shop, op, id, Effect(engine, shop, op).value.products[id]) {
          CostsBecame(engine, shop, op, id);
        }
      }
    } else {
      SingleBecame(engine, shop, op);
    }
  }

  /** The request names something that is not there. */
  ghost predicate Missing(shop: Shop, op: Op) {
    match op
    case ApplyCosts(lines) => exists i :: 0 <= i < |lines| && lines[i].product >= |shop.products|
    case ChangeTax(t, _, _) => t >= |shop.rules.taxes|
    case SetTaxActive(t, _) => t >= |shop.rules.taxes|
    case ChangeCategoryPricing(c, _) => c !in shop.rules.categories
    case _ => OnOne(op) && op.id >= |shop.products|
  }

  /** The request is wrong in itself: a formula that cannot be saved, a tax that does not exist, a product twice. */
  ghost predicate Malformed(engine: Engine, shop: Shop, op: Op) {
    match op
    case SetInputs(_, u) => u.taxes.Some? && exists t :: t in u.taxes.value && t >= |shop.rules.taxes|
    case SetFormula(_, f) => !engine.valid(f)
    case ChangeShopFormula(f) => !engine.valid(f)
    case ChangeCategoryPricing(_, pricing) =>
      || (pricing.formula.Some? && !engine.valid(pricing.formula.value))
      || exists t :: t in pricing.taxes && t >= |shop.rules.taxes|
    case ApplyCosts(lines) => exists i, j :: 0 <= i < j < |lines| && lines[i].product == lines[j].product
    case _ => false
  }

  /** A receipt line whose product has neither the cost it brings nor the cost it was reviewed against. */
  ghost predicate Outdated(shop: Shop, op: Op) {
    op.ApplyCosts? && exists i :: 0 <= i < |op.lines| && op.lines[i].product < |shop.products|
                                  && shop.products[op.lines[i].product].inputs.cost != Received(op.lines[i])
                                  && shop.products[op.lines[i].product].inputs.cost != op.lines[i].expected
  }

  /** Each refusal says what is wrong; a price that cannot be computed is a validation error. */
  lemma RefusalsSayWhy(engine: Engine, shop: Shop, op: Op)
    requires Effect(engine, shop, op).Err?
    ensures match Effect(engine, shop, op).error
            case NotFound => Missing(shop, op)
            case Conflict => Outdated(shop, op)
            case Validation => Malformed(engine, shop, op) || exists id: nat :: id < |shop.products| && !Priceable(engine, shop, op, id)
  {
    WhoIsRepriced(engine, shop, op);
    hide Priceable, Received, Automatic, Recorded;
    PriceErrors(engine, shop, op);
  }

  /** Once a price is to be computed, the only error is that it cannot be. */
  lemma PriceErrors(engine: Engine, shop: Shop, op: Op)
    ensures forall rules, p :: var r := RepricedAndRecorded(engine, rules, p); r.Err? ==> r.error == Validation
    ensures forall rules, ps, selected :: var r := RepriceAll(engine, rules, ps, selected); r.Err? ==> r.error == Validation
    ensures op.ApplyCosts? && CostsRefusal(shop.products, op.lines).None? ==>
              var r := CostAll(engine, shop.rules, shop.products, op.lines); r.Err? ==> r.error == Validation
  {
    hide Automatic, Recorded;
    forall rules, ps, selected
      ensures var r := RepriceAll(engine, rules, ps, selected); r.Err? ==> r.error == Validation
    {
      RepriceErrors(engine, rules, ps, selected);
    }
    if op.ApplyCosts? && CostsRefusal(shop.products, op.lines).None? { CostErrors(engine, shop.rules, shop.products, op.lines); }
  }

  lemma {:induction false} RepriceErrors(engine: Engine, rules: Rules, products: seq<Product>, selected: Product -> bool)
    ensures var r := RepriceAll(engine, rules, products, selected); r.Err? ==> r.error == Validation
  {
    hide Automatic, Recorded;
    if products != [] { RepriceErrors(engine, rules, products[..|products| - 1], selected); }
  }

  lemma {:induction false} CostErrors(engine: Engine, rules: Rules, products: seq<Product>, lines: seq<CostLine>)
    requires forall i :: 0 <= i < |lines| ==> lines[i].product < |products|
    ensures var r := CostAll(engine, rules, products, lines); r.Err? ==> r.error == Validation
  {
    hide Automatic, Recorded;
    if lines != [] { CostErrors(engine, rules, products, lines[..|lines| - 1]); }
  }

  lemma CostsKeepCount(engine: Engine, shop: Shop, op: Op)
    requires op.ApplyCosts? && Effect(engine, shop, op).Ok?
    ensures |Effect(engine, shop, op).value.products| == |shop.products|
  {
    hide WithCost, OneEach, Stale;
  }

  lemma SingleBecame(engine: Engine, shop: Shop, op: Op)
    requires OnOne(op)
    ensures Effect(engine, shop, op).Ok? <==>
              Allowed(engine, shop, op) && forall id: nat :: id < |shop.products| ==> Priceable(engine, shop, op, id)
    ensures Effect(engine, shop, op).Ok? ==>
              var after := Effect(engine, shop, op).value.products;
              && |after| == |shop.products|
              && forall id: nat :: id < |shop.products| ==> Became(engine, shop, op, id, after[id])
  {
    if op.id < |shop.products| {
      OneBecame(engine, shop, op);
      hide Effect, Allowed, Automatic, NewPrice, GivenRules;
      forall id: nat | id < |shop.products| && id != op.id
        ensures Priceable(engine, shop, op, id) && Became(engine, shop, op, id, shop.products[id])
      {
        assert Revised(shop.products[id], op, id) == shop.products[id];
      }
    }
  }

  // What a price is made of.

  /** The product's own value comes first, then its category's, then the default. */
  ghost predicate Falls<T(!new)>(own: Option<T>, family: Option<T>, otherwise: T, used: T) {
    own == Some(used) || (own.None? && family == Some(used)) || (own.None? && family.None? && used == otherwise)
  }

  ghost predicate IsFamily(rules: Rules, p: Product, c: Category) {
    if p.category.Some? && p.category.value in rules.categories then c == rules.categories[p.category.value]
    else c == Category(None, None, None, {})
  }

  function RateOf(taxes: seq<Tax>, surcharge: bool): nat -> Decimal {
    (t: nat) => if t >= |taxes| || !taxes[t].active then 0.0 else if surcharge then taxes[t].surchargeRate else taxes[t].rate
  }

  lemma {:induction false} OneTaxLess(taxes: seq<Tax>, ids: set<nat>, t: nat, surcharge: bool)
    requires t in ids
    ensures TaxTotal(taxes, ids, surcharge) == TaxTotal(taxes, ids - {t}, surcharge) + RateOf(taxes, surcharge)(t)
  {
    if taxes != [] { OneTaxLess(taxes[..|taxes| - 1], ids, t, surcharge); }
  }

  lemma {:induction false} NoTaxes(taxes: seq<Tax>, surcharge: bool)
    ensures TaxTotal(taxes, {}, surcharge) == 0.0
  {
    if taxes != [] { NoTaxes(taxes[..|taxes| - 1], surcharge); }
  }

  /** However the taxes are listed, their rates add up, the inactive ones counting for nothing. */
  lemma {:induction false} TaxesAddUp(taxes: seq<Tax>, chosen: seq<nat>, surcharge: bool)
    requires Distinct(chosen)
    ensures TaxTotal(taxes, Elements(chosen), surcharge) == Sum(chosen, RateOf(taxes, surcharge))
  {
    hide RateOf;
    if chosen == [] {
      assert Elements(chosen) == {};
      NoTaxes(taxes, surcharge);
    } else {
      var front, t := chosen[..|chosen| - 1], chosen[|chosen| - 1];
      TaxesAddUp(taxes, front, surcharge);
      assert chosen == front + [t];
      assert Elements(front) == Elements(chosen) - {t};
      OneTaxLess(taxes, Elements(chosen), t, surcharge);
    }
  }

  lemma RateIsListed(rules: Rules, p: Product, c: Category, chosen: seq<nat>, surcharge: bool)
    requires IsFamily(rules, p, c) && Distinct(chosen) && chosen != []
    requires Elements(chosen) == if p.inputs.taxes != {} then p.inputs.taxes else c.taxes
    ensures EffectiveRate(rules, p, surcharge) == Sum(chosen, RateOf(rules.taxes, surcharge))
  {
    assert chosen[0] in Elements(chosen);
    TaxesAddUp(rules.taxes, chosen, surcharge);
  }

  /** The automatic price in its own terms: own values before the category's and those before the defaults; taxes of a
      product or of its category in place of its loose rates; the fixed margin on top of whatever formula it is. */
  lemma PriceSpelledOut(engine: Engine, rules: Rules, p: Product, c: Category)
    returns (tax: Decimal, surcharge: Decimal, margin: Decimal, fixed: Decimal, f: Formula)
    requires IsFamily(rules, p, c)
    ensures Falls(p.inputs.marginRate, c.marginRate, 0.0, margin)
    ensures Falls(p.inputs.marginAmount, c.marginAmount, 0.0, fixed)
    ensures Falls(p.formula, c.formula, rules.formula, f)
    ensures forall chosen: seq<nat> ::
              Distinct(chosen) && chosen != [] && Elements(chosen) == (if p.inputs.taxes != {} then p.inputs.taxes else c.taxes)
              ==> tax == Sum(chosen, RateOf(rules.taxes, false)) && surcharge == Sum(chosen, RateOf(rules.taxes, true))
    ensures p.inputs.taxes == {} == c.taxes ==> tax == p.inputs.taxRate && surcharge == p.inputs.surchargeRate
    ensures var x := engine.evaluate(f, Variables(p.inputs.cost, tax, surcharge, margin));
            Automatic(engine, rules, p) == if x.Some? then Some(x.value + fixed) else None
  {
    tax, surcharge := EffectiveRate(rules, p, false), EffectiveRate(rules, p, true);
    margin, fixed, f := EffectiveMarginRate(rules, p), EffectiveMarginAmount(rules, p), EffectiveFormula(rules, p);
    forall chosen: seq<nat> |
      Distinct(chosen) && chosen != [] && Elements(chosen) == (if p.inputs.taxes != {} then p.inputs.taxes else c.taxes)
      ensures tax == Sum(chosen, RateOf(rules.taxes, false)) && surcharge == Sum(chosen, RateOf(rules.taxes, true))
    {
      RateIsListed(rules, p, c, chosen, false);
      RateIsListed(rules, p, c, chosen, true);
    }
  }

  lemma Undo(total: Decimal, factor: Decimal)
    requires factor > 0.0
    ensures total / factor * factor == total
  {}

  lemma Bounded(miss: Decimal, factor: Decimal)
    requires factor > 0.0 && -0.5 <= miss <= 0.5
    ensures -0.5 * factor <= miss * factor <= 0.5 * factor
  {}

  lemma Regroup(received: Decimal, exact: Decimal, factor: Decimal)
    ensures (received * 1000000.0 - exact * 1000000.0) * factor == received * factor * 1000000.0 - exact * factor * 1000000.0
  {}

  lemma PerUnit(received: Decimal, exact: Decimal, factor: Decimal, whole: Decimal, total: Decimal)
    requires factor > 0.0 && total == exact * factor && whole == received * factor
    requires -0.5 <= received * 1000000.0 - exact * 1000000.0 <= 0.5
    ensures -0.5 * factor <= whole * 1000000.0 - total * 1000000.0 <= 0.5 * factor
  {
    var miss := received * 1000000.0 - exact * 1000000.0;
    Regroup(received, exact, factor);
    Bounded(miss, factor);
    assert miss * factor == whole * 1000000.0 - total * 1000000.0;
  }

  /** A received cost times the units of its package is the package's cost, to within half a millionth a unit. */
  lemma ReceivedIsPerUnit(line: CostLine) returns (whole: Decimal)
    ensures whole == Received(line) * line.factor
    ensures -0.5 * line.factor <= whole * 1000000.0 - line.unitCost * 1000000.0 <= 0.5 * line.factor
  {
    var exact := line.unitCost / line.factor;
    whole := Received(line) * line.factor;
    Undo(line.unitCost, line.factor);
    assert Received(line) * 1000000.0 == Quantize(exact) as real;
    PerUnit(Received(line), exact, line.factor, whole, line.unitCost);
  }
}
