/** The pricing calculator: a table of model prices and the estimators built
    on it (single request, monthly projection, budget inversion, ranking of
    models, recommendation).

    The source reads its module-level table PRICING_DATA; here every
    operation takes the table as its first argument, `PricingData` is the
    source's table, and the lemmas hold for every well-formed table. */
module PricingCalculator {
  import opened Wrappers
  import Dict
  import opened CostFormula
  import opened StableSort

  /** One billable model; prices in USD per 1,000,000 tokens. */
  datatype ModelPricing = ModelPricing(
    name: string,
    provider: string,
    inputPrice: real,
    outputPrice: real,
    contextLimit: int)

  /** A pricing table: a dict from model name to its pricing. */
  type Table = seq<(string, ModelPricing)>

  /** PRICING_DATA, in insertion order. */
  const PricingData: Table := [
    ("gpt-3.5-turbo", ModelPricing("gpt-3.5-turbo", "OpenAI", 0.50, 1.50, 4096)),
    ("gpt-3.5-turbo-16k", ModelPricing("gpt-3.5-turbo-16k", "OpenAI", 3.00, 4.00, 16384)),
    ("gpt-4", ModelPricing("gpt-4", "OpenAI", 30.00, 60.00, 8192)),
    ("gpt-4-32k", ModelPricing("gpt-4-32k", "OpenAI", 60.00, 120.00, 32768)),
    ("gpt-4-turbo", ModelPricing("gpt-4-turbo", "OpenAI", 10.00, 30.00, 128000)),
    ("claude-3-opus", ModelPricing("claude-3-opus", "Anthropic", 15.00, 75.00, 200000)),
    ("claude-3-sonnet", ModelPricing("claude-3-sonnet", "Anthropic", 3.00, 15.00, 200000)),
    ("claude-3-haiku", ModelPricing("claude-3-haiku", "Anthropic", 0.25, 1.25, 200000))
  ]

  /** A table as the program builds one: keys are distinct, every entry is
      stored under its own name, prices are positive and context windows
      are positive. */
  predicate ValidTable(table: Table)
  {
    && Dict.DistinctKeys(table)
    && forall i :: 0 <= i < |table| ==>
         && table[i].1.name == table[i].0
         && table[i].1.inputPrice > 0.0
         && table[i].1.outputPrice > 0.0
         && table[i].1.contextLimit > 0
  }

  lemma PricingDataShape()
    ensures ValidTable(PricingData)
    ensures |PricingData| == 8
    ensures Dict.Keys(PricingData) == ["gpt-3.5-turbo", "gpt-3.5-turbo-16k", "gpt-4", "gpt-4-32k",
                                       "gpt-4-turbo", "claude-3-opus", "claude-3-sonnet", "claude-3-haiku"]
  {
  }

  datatype Error =
    | UnknownModel(model: string)   // ValueError raised by calculate_cost
    | NoResults                     // IndexError at results[0] / costs[0] on an empty list

  /** `PRICING_DATA[model]` */
  function Pricing(table: Table, model: string): (p: ModelPricing)
    requires Dict.HasKey(table, model)
    ensures exists i :: 0 <= i < |table| && table[i].0 == model && table[i].1 == p
  {
    Dict.GetFound(table, model);
    Dict.Get(table, model).value
  }

  lemma PricingOf(table: Table, model: string)
    requires ValidTable(table) && Dict.HasKey(table, model)
    ensures Pricing(table, model).name == model
    ensures Pricing(table, model).inputPrice > 0.0 && Pricing(table, model).outputPrice > 0.0
    ensures Pricing(table, model).contextLimit > 0
  {
    Dict.GetFound(table, model);
  }

  // ---------------------------------------------------------------------
  // calculate_cost

  /** The cost of one call, as `calculate_cost` returns it. */
  datatype CostBreakdown = CostBreakdown(
    inputCost: real,
    outputCost: real,
    totalCost: real,
    model: string,
    provider: string)

  /** The breakdown of one call priced at `pricing`. */
  function Breakdown(inputTokens: int, outputTokens: int, model: string, pricing: ModelPricing): (c: CostBreakdown)
    ensures c.totalCost == c.inputCost + c.outputCost
    ensures c.model == model && c.provider == pricing.provider
  {
    var inputCost := TokenCost(inputTokens, pricing.inputPrice);
    var outputCost := TokenCost(outputTokens, pricing.outputPrice);
    CostBreakdown(inputCost, outputCost, inputCost + outputCost, model, pricing.provider)
  }

  function CalculateCost(table: Table, inputTokens: int, outputTokens: int, model: string): (r: Result<CostBreakdown, Error>)
    ensures r.Failure? <==> !Dict.HasKey(table, model)
    ensures r.Failure? ==> r.error == UnknownModel(model)
    ensures r.Success? ==> r.value == Breakdown(inputTokens, outputTokens, model, Pricing(table, model))
  {
    if !Dict.HasKey(table, model) then Failure(UnknownModel(model))
    else Success(Breakdown(inputTokens, outputTokens, model, Pricing(table, model)))
  }

  /** Both costs are the token counts times the table's per-token prices,
      the total is their sum, and model and provider are echoed. */
  lemma CalculateCostFormula(table: Table, inputTokens: int, outputTokens: int, model: string)
    requires Dict.HasKey(table, model)
    ensures var c := CalculateCost(table, inputTokens, outputTokens, model).value;
      && c.inputCost == (inputTokens as real / 1000000.0) * Pricing(table, model).inputPrice
      && c.outputCost == (outputTokens as real / 1000000.0) * Pricing(table, model).outputPrice
      && c.totalCost == c.inputCost + c.outputCost
      && c.model == model
      && c.provider == Pricing(table, model).provider
  {
  }

  lemma CalculateCostNonNegative(table: Table, inputTokens: int, outputTokens: int, model: string)
    requires ValidTable(table) && Dict.HasKey(table, model)
    requires inputTokens >= 0 && outputTokens >= 0
    ensures var c := CalculateCost(table, inputTokens, outputTokens, model).value;
      c.inputCost >= 0.0 && c.outputCost >= 0.0 && c.totalCost >= 0.0
  {
    PricingOf(table, model);
    TokenCostNonNegative(inputTokens, Pricing(table, model).inputPrice);
    TokenCostNonNegative(outputTokens, Pricing(table, model).outputPrice);
  }

  lemma BreakdownLinear(k: int, inputTokens: int, outputTokens: int, model: string, pricing: ModelPricing)
    ensures var scaled := Breakdown(k * inputTokens, k * outputTokens, model, pricing);
      var one := Breakdown(inputTokens, outputTokens, model, pricing);
      && scaled.inputCost == k as real * one.inputCost
      && scaled.outputCost == k as real * one.outputCost
      && scaled.totalCost == k as real * one.totalCost
  {
    var one := Breakdown(inputTokens, outputTokens, model, pricing);
    TokenCostScales(k, inputTokens, pricing.inputPrice);
    TokenCostScales(k, outputTokens, pricing.outputPrice);
    DistributesOverSum(k as real, one.inputCost, one.outputCost);
  }

  lemma DistributesOverSum(k: real, a: real, b: real)
    ensures k * a + k * b == k * (a + b)
  {
  }

  /** Scaling both token counts by k scales every cost by k. */
  lemma CalculateCostLinear(table: Table, k: int, inputTokens: int, outputTokens: int, model: string)
    requires Dict.HasKey(table, model)
    ensures var scaled := CalculateCost(table, k * inputTokens, k * outputTokens, model).value;
      var one := CalculateCost(table, inputTokens, outputTokens, model).value;
      && scaled.inputCost == k as real * one.inputCost
      && scaled.outputCost == k as real * one.outputCost
      && scaled.totalCost == k as real * one.totalCost
  {
    BreakdownLinear(k, inputTokens, outputTokens, model, Pricing(table, model));
  }

  lemma CalculateCostOfNothing(table: Table, model: string)
    requires Dict.HasKey(table, model)
    ensures CalculateCost(table, 0, 0, model).value.totalCost == 0.0
  {
  }

  /** A million input tokens cost the table's input price. */
  lemma CalculateCostOfMillionInputTokens(table: Table, model: string)
    requires Dict.HasKey(table, model)
    ensures CalculateCost(table, 1000000, 0, model).value.inputCost == Pricing(table, model).inputPrice
  {
    TokenCostOfMillion(Pricing(table, model).inputPrice);
  }

  /** The example in calculate_cost's documentation. */
  lemma DocumentedExample()
    ensures CalculateCost(PricingData, 1000, 500, "gpt-3.5-turbo")
         == Success(CostBreakdown(0.0005, 0.00075, 0.00125, "gpt-3.5-turbo", "OpenAI"))
  {
    PricingDataShape();
    Dict.GetAt(PricingData, 0);
  }

  /** An unknown name never yields a cost. */
  lemma UnknownModelRejected(inputTokens: int, outputTokens: int)
    ensures CalculateCost(PricingData, inputTokens, outputTokens, "not-a-model")
         == Failure(UnknownModel("not-a-model"))
  {
  }

  // ---------------------------------------------------------------------
  // estimate_monthly_cost

  /** The fixed 30-day month of the projections. */
  const DaysPerMonth: int := 30

  datatype MonthlyEstimate = MonthlyEstimate(
    dailyRequests: int,
    monthlyRequests: int,
    monthlyInputTokens: int,
    monthlyOutputTokens: int,
    dailyCost: real,
    monthlyCost: real,
    yearlyCost: real,
    model: string)

  function EstimateMonthlyCost(table: Table, requestsPerDay: int, avgInputTokens: int, avgOutputTokens: int, model: string)
    : (r: Result<MonthlyEstimate, Error>)
    ensures r.Failure? <==> !Dict.HasKey(table, model)
    ensures r.Failure? ==> r.error == UnknownModel(model)
    ensures r.Success? ==>
      && r.value.dailyRequests == requestsPerDay
      && r.value.monthlyRequests == requestsPerDay * 30
      && r.value.monthlyInputTokens == r.value.monthlyRequests * avgInputTokens
      && r.value.monthlyOutputTokens == r.value.monthlyRequests * avgOutputTokens
      && r.value.monthlyCost
         == CalculateCost(table, r.value.monthlyInputTokens, r.value.monthlyOutputTokens, model).value.totalCost
      && r.value.yearlyCost == r.value.monthlyCost * 12.0
      && r.value.dailyCost * 30.0 == r.value.monthlyCost
      && r.value.model == model
  {
    var monthlyRequests := requestsPerDay * DaysPerMonth;
    var totalInput := monthlyRequests * avgInputTokens;
    var totalOutput := monthlyRequests * avgOutputTokens;
    match CalculateCost(table, totalInput, totalOutput, model)
    case Failure(e) => Failure(e)
    case Success(cost) =>
      Success(MonthlyEstimate(
        requestsPerDay, monthlyRequests, totalInput, totalOutput,
        cost.totalCost / DaysPerMonth as real, cost.totalCost, cost.totalCost * 12.0, model))
  }

  /** The month costs its 30 * requests_per_day requests at the price of one
      average request each, and a day costs requests_per_day of them. */
  lemma MonthlyCostIsRequestsTimesRequestCost(table: Table, requestsPerDay: int, avgInputTokens: int, avgOutputTokens: int, model: string)
    requires Dict.HasKey(table, model)
    ensures var perRequest := CalculateCost(table, avgInputTokens, avgOutputTokens, model).value.totalCost;
      var estimate := EstimateMonthlyCost(table, requestsPerDay, avgInputTokens, avgOutputTokens, model).value;
      && estimate.monthlyCost == (30 * requestsPerDay) as real * perRequest
      && estimate.dailyCost == requestsPerDay as real * perRequest
      && estimate.yearlyCost == (360 * requestsPerDay) as real * perRequest
  {
    var perRequest := CalculateCost(table, avgInputTokens, avgOutputTokens, model).value.totalCost;
    var estimate := EstimateMonthlyCost(table, requestsPerDay, avgInputTokens, avgOutputTokens, model).value;
    assert estimate.monthlyRequests == 30 * requestsPerDay;
    CalculateCostLinear(table, 30 * requestsPerDay, avgInputTokens, avgOutputTokens, model);
    assert estimate.monthlyCost == (30 * requestsPerDay) as real * perRequest;
    assert (30 * requestsPerDay) as real == 30.0 * requestsPerDay as real;
    assert (360 * requestsPerDay) as real == 12.0 * (30.0 * requestsPerDay as real);
  }

  // ---------------------------------------------------------------------
  // budget_planner

  /** The typical request the budget planner assumes. */
  const TypicalInputTokens: int := 200
  const TypicalOutputTokens: int := 100

  datatype BudgetPlan = BudgetPlan(
    budget: real,
    model: string,
    costPerRequest: real,
    maxRequests: int,
    requestsPerDay30Days: int,
    requestsPerDay365Days: int)

  /** Python's `int(x)` on a float: truncation toward zero. */
  function TruncateToInt(x: real): (r: int)
    ensures x >= 0.0 ==> r >= 0 && r as real <= x < r as real + 1.0
    ensures x < 0.0 ==> r <= 0 && r as real - 1.0 < x <= r as real
  {
    if x >= 0.0 then x.Floor else -((-x).Floor)
  }

  /** Python's `n // d` for a positive divisor (Dafny's `/` on int agrees
      with floor division when the divisor is positive). */
  function FloorDiv(n: int, d: int): (q: int)
    requires d > 0
    ensures q * d <= n < q * d + d
  {
    n / d
  }

  /** How many whole requests of cost c fit in the budget, as int() counts them. */
  ghost predicate QuotientBounds(budget: real, c: real)
    requires c > 0.0
  {
    var m := TruncateToInt(budget / c);
    && (budget >= 0.0 ==> m >= 0 && m as real * c <= budget < (m + 1) as real * c)
    && (budget < 0.0 ==> m <= 0 && (m - 1) as real * c < budget <= m as real * c)
  }

  lemma TruncatedQuotient(budget: real, c: real)
    requires c > 0.0
    ensures QuotientBounds(budget, c)
  {
    var q := budget / c;
    var m := TruncateToInt(q);
    assert q * c == budget;
    MultiplyBounds(m as real, q, c);
    MultiplyBounds(q, (m + 1) as real, c);
    MultiplyBounds((m - 1) as real, q, c);
    MultiplyBounds(q, m as real, c);
  }

  lemma MultiplyBounds(a: real, b: real, c: real)
    requires c > 0.0
    ensures a <= b ==> a * c <= b * c
    ensures a < b ==> a * c < b * c
  {
  }

  function BudgetPlanner(table: Table, budget: real, model: string): (r: Result<BudgetPlan, Error>)
    ensures r.Failure? <==> !Dict.HasKey(table, model)
    ensures r.Failure? ==> r.error == UnknownModel(model)
    ensures r.Success? ==>
      && r.value.budget == budget && r.value.model == model
      && r.value.costPerRequest
         == CalculateCost(table, TypicalInputTokens, TypicalOutputTokens, model).value.totalCost
    ensures r.Success? && r.value.costPerRequest > 0.0 && budget >= 0.0 ==>
      && r.value.maxRequests >= 0
      && r.value.maxRequests as real * r.value.costPerRequest <= budget
      && budget < (r.value.maxRequests + 1) as real * r.value.costPerRequest
    ensures r.Success? && r.value.costPerRequest > 0.0 && budget < 0.0 ==>
      && r.value.maxRequests <= 0
      && (r.value.maxRequests - 1) as real * r.value.costPerRequest < budget
      && budget <= r.value.maxRequests as real * r.value.costPerRequest
    ensures r.Success? && r.value.costPerRequest <= 0.0 ==> r.value.maxRequests == 0
    ensures r.Success? ==>
      && r.value.requestsPerDay30Days * 30 <= r.value.maxRequests < r.value.requestsPerDay30Days * 30 + 30
      && r.value.requestsPerDay365Days * 365 <= r.value.maxRequests < r.value.requestsPerDay365Days * 365 + 365
  {
    match CalculateCost(table, TypicalInputTokens, TypicalOutputTokens, model)
    case Failure(e) => Failure(e)
    case Success(cost) =>
      var costPerRequest := cost.totalCost;
      var maxRequests := if costPerRequest > 0.0 then TruncateToInt(budget / costPerRequest) else 0;
      assert costPerRequest > 0.0 ==> QuotientBounds(budget, costPerRequest) by {
        if costPerRequest > 0.0 {
          TruncatedQuotient(budget, costPerRequest);
        }
      }
      Success(BudgetPlan(budget, model, costPerRequest, maxRequests, FloorDiv(maxRequests, 30), FloorDiv(maxRequests, 365)))
  }

  /** In a well-formed table, any priced tokens cost something. */
  lemma PositiveTokensCostSomething(table: Table, inputTokens: int, outputTokens: int, model: string)
    requires ValidTable(table) && Dict.HasKey(table, model)
    requires inputTokens >= 0 && outputTokens >= 0 && inputTokens + outputTokens > 0
    ensures CalculateCost(table, inputTokens, outputTokens, model).value.totalCost > 0.0
  {
    PricingOf(table, model);
    var p := Pricing(table, model);
    TokenCostNonNegative(inputTokens, p.inputPrice);
    TokenCostNonNegative(outputTokens, p.outputPrice);
    if inputTokens > 0 {
      assert TokenCost(inputTokens, p.inputPrice) > 0.0;
    } else {
      assert TokenCost(outputTokens, p.outputPrice) > 0.0;
    }
  }

  /** The cost of the planner's typical request. */
  function TypicalRequestCost(table: Table, model: string): real
    requires Dict.HasKey(table, model)
  {
    CalculateCost(table, TypicalInputTokens, TypicalOutputTokens, model).value.totalCost
  }

  /** With the table's positive prices a request always costs something. */
  lemma CostPerRequestPositive(table: Table, model: string)
    requires ValidTable(table) && Dict.HasKey(table, model)
    ensures TypicalRequestCost(table, model) > 0.0
  {
    PricingOf(table, model);
    var p := Pricing(table, model);
    assert TokenCost(TypicalInputTokens, p.inputPrice) > 0.0;
    assert TokenCost(TypicalOutputTokens, p.outputPrice) > 0.0;
  }

  /** Budget inversion undoes per-request costing: a budget of n + f
      typical requests' worth (0 <= f < 1) buys exactly n requests. */
  lemma BudgetInvertsRequestCost(table: Table, model: string, n: nat, f: real, budget: real)
    requires ValidTable(table) && Dict.HasKey(table, model)
    requires 0.0 <= f < 1.0
    requires budget == (n as real + f) * TypicalRequestCost(table, model)
    ensures BudgetPlanner(table, budget, model).value.maxRequests == n
  {
    CostPerRequestPositive(table, model);
    var c := TypicalRequestCost(table, model);
    var plan := BudgetPlanner(table, budget, model).value;
    assert plan.costPerRequest == c;
    MultipleIsNonNegative(n as real + f, c);
    assert budget >= 0.0;
    assert plan.maxRequests as real * c <= budget < (plan.maxRequests + 1) as real * c;
    WholeMultiples(n, f, c, plan.maxRequests, budget);
  }

  lemma MultipleIsNonNegative(a: real, c: real)
    requires a >= 0.0 && c > 0.0
    ensures a * c >= 0.0
  {
  }

  lemma WholeMultiples(n: int, f: real, c: real, m: int, budget: real)
    requires c > 0.0 && 0.0 <= f < 1.0
    requires budget == (n as real + f) * c
    requires m as real * c <= budget < (m + 1) as real * c
    ensures m == n
  {
    assert m as real <= n as real + f by {
      MultiplyBounds(n as real + f, m as real, c);
    }
    assert n as real + f < (m + 1) as real by {
      MultiplyBounds((m + 1) as real, n as real + f, c);
    }
  }

  // ---------------------------------------------------------------------
  // compare_models

  /** The sort key of compare_models. */
  function TotalCostOf(c: CostBreakdown): real
  {
    c.totalCost
  }

  /** The models compare_models looks at: all of the table's when none are given. */
  function Requested(table: Table, models: Option<seq<string>>): (names: seq<string>)
    ensures models.Some? ==> names == models.value
    ensures models.None? ==> |names| == |table| && forall j :: 0 <= j < |names| ==> names[j] == table[j].0
  {
    match models
    case None => Dict.Keys(table)
    case Some(names) => names
  }

  /** The breakdowns collected for `names`, in order; names the table does
      not know are skipped. */
  function KnownCosts(table: Table, inputTokens: int, outputTokens: int, names: seq<string>): (costs: seq<CostBreakdown>)
    ensures |costs| <= |names|
    ensures (forall j :: 0 <= j < |names| ==> Dict.HasKey(table, names[j])) ==> |costs| == |names|
  {
    if names == [] then []
    else
      var rest := KnownCosts(table, inputTokens, outputTokens, names[..|names| - 1]);
      var last := names[|names| - 1];
      if Dict.HasKey(table, last) then rest + [CalculateCost(table, inputTokens, outputTokens, last).value]
      else rest
  }

  /** Unknown names are skipped, not raised: what is collected is the
      breakdowns of exactly the known names. */
  lemma {:induction false} KnownCostsAreTheKnownNames(table: Table, inputTokens: int, outputTokens: int, names: seq<string>)
    ensures forall j :: 0 <= j < |KnownCosts(table, inputTokens, outputTokens, names)| ==>
      var c := KnownCosts(table, inputTokens, outputTokens, names)[j];
      && c.model in names
      && Dict.HasKey(table, c.model)
      && c == CalculateCost(table, inputTokens, outputTokens, c.model).value
    ensures forall name :: name in names && Dict.HasKey(table, name) ==>
      exists j :: 0 <= j < |KnownCosts(table, inputTokens, outputTokens, names)|
        && KnownCosts(table, inputTokens, outputTokens, names)[j].model == name
  {
    if names != [] {
      var init := names[..|names| - 1];
      KnownCostsAreTheKnownNames(table, inputTokens, outputTokens, init);
      var costs := KnownCosts(table, inputTokens, outputTokens, names);
      var rest := KnownCosts(table, inputTokens, outputTokens, init);
      assert names == init + [names[|names| - 1]];
      forall name | name in names && Dict.HasKey(table, name)
        ensures exists j :: 0 <= j < |costs| && costs[j].model == name
      {
        if name in init {
          var j :| 0 <= j < |rest| && rest[j].model == name;
          assert costs[j] == rest[j];
        } else {
          assert name == names[|names| - 1];
          assert costs == rest + [CalculateCost(table, inputTokens, outputTokens, name).value];
          assert costs[|costs| - 1].model == name;
        }
      }
    }
  }

  lemma {:induction false} KnownCostsEmpty(table: Table, inputTokens: int, outputTokens: int, names: seq<string>)
    ensures KnownCosts(table, inputTokens, outputTokens, names) == []
        <==> forall name :: name in names ==> !Dict.HasKey(table, name)
  {
    KnownCostsAreTheKnownNames(table, inputTokens, outputTokens, names);
    var costs := KnownCosts(table, inputTokens, outputTokens, names);
    if costs != [] {
      assert costs[0].model in names;
    }
  }

  /** In a well-formed table, every collected breakdown of priced tokens costs something. */
  lemma KnownCostsPositive(table: Table, inputTokens: int, outputTokens: int, names: seq<string>)
    requires ValidTable(table)
    requires inputTokens >= 0 && outputTokens >= 0 && inputTokens + outputTokens > 0
    ensures forall c :: c in KnownCosts(table, inputTokens, outputTokens, names) ==> c.totalCost > 0.0
  {
    var costs := KnownCosts(table, inputTokens, outputTokens, names);
    KnownCostsAreTheKnownNames(table, inputTokens, outputTokens, names);
    forall c | c in costs ensures c.totalCost > 0.0 {
      var j :| 0 <= j < |costs| && costs[j] == c;
      PositiveTokensCostSomething(table, inputTokens, outputTokens, c.model);
    }
  }

  /** ... so the cheapest of them, the comparison's base, does too. */
  lemma CheapestKnownCostPositive(table: Table, inputTokens: int, outputTokens: int, names: seq<string>)
    requires ValidTable(table)
    requires inputTokens >= 0 && outputTokens >= 0 && inputTokens + outputTokens > 0
    requires KnownCosts(table, inputTokens, outputTokens, names) != []
    ensures Sort(KnownCosts(table, inputTokens, outputTokens, names), TotalCostOf)[0].totalCost > 0.0
  {
    var known := KnownCosts(table, inputTokens, outputTokens, names);
    KnownCostsPositive(table, inputTokens, outputTokens, names);
    var ranked := Sort(known, TotalCostOf);
    assert ranked[0] in multiset(known);
  }

  /** `cost / cheapest_cost if cheapest_cost > 0 else 0` */
  function Multiplier(cost: real, cheapest: real): (m: real)
    ensures cheapest > 0.0 ==> m * cheapest == cost
    ensures cheapest <= 0.0 ==> m == 0.0
  {
    if cheapest > 0.0 then cost / cheapest else 0.0
  }

  lemma MultiplierAtLeastOne(cost: real, cheapest: real)
    requires cheapest > 0.0 && cost >= cheapest
    ensures Multiplier(cost, cheapest) >= 1.0
  {
    MultiplyBounds(1.0, cost / cheapest, cheapest);
  }

  /** One line of the comparison: a breakdown and how many times the
      cheapest it costs. */
  datatype ComparisonRow = ComparisonRow(cost: CostBreakdown, multiplier: real)

  method CompareModels(table: Table, inputTokens: int, outputTokens: int, models: Option<seq<string>>)
    returns (r: Result<seq<ComparisonRow>, Error>)
    ensures var ranked := Sort(KnownCosts(table, inputTokens, outputTokens, Requested(table, models)), TotalCostOf);
      && (r.Failure? <==> ranked == [])
      && (r.Failure? ==> r.error == NoResults)
      && (r.Success? ==>
            && |r.value| == |ranked|
            && forall j :: 0 <= j < |ranked| ==>
                 r.value[j] == ComparisonRow(ranked[j], Multiplier(ranked[j].totalCost, ranked[0].totalCost)))
    ensures r.Success? ==>
      forall i, j :: 0 <= i < j < |r.value| ==> r.value[i].cost.totalCost <= r.value[j].cost.totalCost
    ensures r.Success? && r.value[0].cost.totalCost > 0.0 ==>
      forall j :: 0 <= j < |r.value| ==> r.value[j].multiplier >= 1.0
    ensures r.Success? && ValidTable(table) && inputTokens >= 0 && outputTokens >= 0 && inputTokens + outputTokens > 0 ==>
      forall j :: 0 <= j < |r.value| ==> r.value[j].multiplier >= 1.0
  {
    var names := Requested(table, models);
    var results: seq<CostBreakdown> := [];
    for i := 0 to |names|
      invariant results == KnownCosts(table, inputTokens, outputTokens, names[..i])
    {
      assert names[..i + 1][..i] == names[..i];
      if Dict.HasKey(table, names[i]) {
        var costData := CalculateCost(table, inputTokens, outputTokens, names[i]);
        results := results + [costData.value];
      }
    }
    assert names[..|names|] == names;
    var known := results;
    results := Sort(known, TotalCostOf);
    if |results| == 0 {
      return Failure(NoResults);
    }
    if ValidTable(table) && inputTokens >= 0 && outputTokens >= 0 && inputTokens + outputTokens > 0 {
      CheapestKnownCostPositive(table, inputTokens, outputTokens, names);
    }
    var rows := MultiplierRows(results);
    r := Success(rows);
  }

  /** The display loop of compare_models: each ranked breakdown with its
      multiple of the first (cheapest) one. */
  method MultiplierRows(ranked: seq<CostBreakdown>) returns (rows: seq<ComparisonRow>)
    requires |ranked| > 0 && SortedBy(ranked, TotalCostOf)
    ensures |rows| == |ranked|
    ensures forall j :: 0 <= j < |ranked| ==>
      rows[j] == ComparisonRow(ranked[j], Multiplier(ranked[j].totalCost, ranked[0].totalCost))
    ensures forall i, j :: 0 <= i < j < |rows| ==> rows[i].cost.totalCost <= rows[j].cost.totalCost
    ensures ranked[0].totalCost > 0.0 ==> forall j :: 0 <= j < |rows| ==> rows[j].multiplier >= 1.0
  {
    var cheapest := ranked[0].totalCost;
    rows := [];
    for j := 0 to |ranked|
      invariant |rows| == j
      invariant forall m :: 0 <= m < j ==> rows[m] == ComparisonRow(ranked[m], Multiplier(ranked[m].totalCost, cheapest))
      invariant cheapest > 0.0 ==> forall m :: 0 <= m < j ==> rows[m].multiplier >= 1.0
    {
      assert TotalCostOf(ranked[0]) <= TotalCostOf(ranked[j]);
      if cheapest > 0.0 {
        MultiplierAtLeastOne(ranked[j].totalCost, cheapest);
      }
      rows := rows + [ComparisonRow(ranked[j], Multiplier(ranked[j].totalCost, cheapest))];
    }
    assert forall i, j :: 0 <= i < j < |rows| ==> TotalCostOf(ranked[i]) <= TotalCostOf(ranked[j]);
  }

  // ---------------------------------------------------------------------
  // optimize_model_selection

  /** Above this many average input tokens the large-context models are listed. */
  const LongInputThreshold: int := 2000
  /** The context window a model needs to be listed as large-context. */
  const LargeContextLimit: int := 16000

  /** `(model, cost_data['total_cost'], PRICING_DATA[model])` */
  datatype CostEntry = CostEntry(model: string, cost: real, pricing: ModelPricing)

  /** The sort key of optimize_model_selection. */
  function EntryCost(e: CostEntry): real
  {
    e.cost
  }

  /** One entry per table model, in table order, costed at the given volumes. */
  function TableCosts(table: Table, totalInput: int, totalOutput: int): (es: seq<CostEntry>)
    ensures |es| == |table|
  {
    seq(|table|, k requires 0 <= k < |table| =>
      assert Dict.HasKey(table, table[k].0);
      CostEntry(table[k].0, CalculateCost(table, totalInput, totalOutput, table[k].0).value.totalCost,
                Pricing(table, table[k].0)))
  }

  predicate HasLargeContext(e: CostEntry)
  {
    e.pricing.contextLimit >= LargeContextLimit
  }

  /** The entries with a large context window, in their order. */
  function LargeContextEntries(es: seq<CostEntry>): (listed: seq<CostEntry>)
    ensures |listed| <= |es|
    ensures forall j :: 0 <= j < |listed| ==> HasLargeContext(listed[j])
  {
    if es == [] then []
    else
      var rest := LargeContextEntries(es[..|es| - 1]);
      if HasLargeContext(es[|es| - 1]) then rest + [es[|es| - 1]] else rest
  }

  /** The listed models are exactly the large-context ones, the 16000 limit
      included, and a sorted input gives a sorted list. */
  lemma {:induction false} LargeContextEntriesExactly(es: seq<CostEntry>)
    ensures forall e :: e in LargeContextEntries(es) <==> e in es && HasLargeContext(e)
    ensures SortedBy(es, EntryCost) ==> SortedBy(LargeContextEntries(es), EntryCost)
  {
    if es != [] {
      var init := es[..|es| - 1];
      LargeContextEntriesExactly(init);
      assert es == init + [es[|es| - 1]];
      var rest := LargeContextEntries(init);
      if SortedBy(es, EntryCost) && HasLargeContext(es[|es| - 1]) {
        assert SortedBy(init, EntryCost);
        forall i | 0 <= i < |rest| ensures EntryCost(rest[i]) <= EntryCost(es[|es| - 1]) {
          assert rest[i] in init;
        }
      }
    }
  }

  datatype Recommendation = Recommendation(
    economical: CostEntry,                  // costs[0]
    balanced: CostEntry,                    // costs[len(costs) // 2]
    largeContext: Option<seq<CostEntry>>)   // listed only when avg_input_tokens > 2000

  method OptimizeModelSelection(table: Table, expectedRequests: int, avgInputTokens: int, avgOutputTokens: int)
    returns (r: Result<Recommendation, Error>)
    ensures var ranked := Sort(TableCosts(table, expectedRequests * avgInputTokens, expectedRequests * avgOutputTokens), EntryCost);
      && (r.Failure? <==> |table| == 0)
      && (r.Failure? ==> r.error == NoResults)
      && (r.Success? ==>
            && r.value.economical == ranked[0]
            && r.value.balanced == ranked[|ranked| / 2]
            && (r.value.largeContext.Some? <==> avgInputTokens > LongInputThreshold)
            && (r.value.largeContext.Some? ==> r.value.largeContext.value == LargeContextEntries(ranked)))
    ensures r.Success? ==> forall k :: 0 <= k < |table| ==>
      r.value.economical.cost
        <= CalculateCost(table, expectedRequests * avgInputTokens, expectedRequests * avgOutputTokens, table[k].0).value.totalCost
  {
    var models := Dict.Keys(table);
    var costs: seq<CostEntry> := [];
    var totalInput := expectedRequests * avgInputTokens;
    var totalOutput := expectedRequests * avgOutputTokens;
    for i := 0 to |models|
      invariant |costs| == i
      invariant forall k :: 0 <= k < i ==> costs[k] == TableCosts(table, totalInput, totalOutput)[k]
    {
      assert Dict.HasKey(table, models[i]);
      var costData := CalculateCost(table, totalInput, totalOutput, models[i]);
      costs := costs + [CostEntry(models[i], costData.value.totalCost, Pricing(table, models[i]))];
    }
    assert costs == TableCosts(table, totalInput, totalOutput);
    if |costs| == 0 {
      return Failure(NoResults);
    }
    var entries := costs;
    SortFirstIsLeast(entries, EntryCost);
    costs := Sort(entries, EntryCost);
    forall k | 0 <= k < |table|
      ensures costs[0].cost <= CalculateCost(table, totalInput, totalOutput, table[k].0).value.totalCost
    {
      assert EntryCost(costs[0]) <= EntryCost(entries[k]);
    }
    var largeContext := None;
    if avgInputTokens > LongInputThreshold {
      var listed := LargeContextModels(costs);
      largeContext := Some(listed);
    }
    r := Success(Recommendation(costs[0], costs[|costs| / 2], largeContext));
  }

  /** The listing loop of optimize_model_selection. */
  method LargeContextModels(costs: seq<CostEntry>) returns (listed: seq<CostEntry>)
    ensures listed == LargeContextEntries(costs)
  {
    listed := [];
    for i := 0 to |costs|
      invariant listed == LargeContextEntries(costs[..i])
    {
      assert costs[..i + 1][..i] == costs[..i];
      if costs[i].pricing.contextLimit >= LargeContextLimit {
        listed := listed + [costs[i]];
      }
    }
    assert costs[..|costs|] == costs;
  }
}
