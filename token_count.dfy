/** The exercise cost estimator (`answers/exercises/token_count.py`): the
    cost of one request with a fixed 100 output tokens, priced from a
    three-entry table. The tokenizer runs before the pricing check. */
module TokenCount {
  import opened Wrappers
  import Dict
  import opened Tokenizer
  import opened CostFormula
  import PricingCalculator

  /** The output tokens every estimate assumes. */
  const OutputTokens: int := 100

  /** The pricing table local to estimate_cost. */
  const ExercisePricing: seq<(string, Rate)> := [
    ("gpt-3.5-turbo", Rate(0.50, 1.50)),
    ("gpt-4", Rate(30.0, 60.0)),
    ("gpt-4-turbo", Rate(10.0, 30.0))
  ]

  datatype EstimateError = TokenizerFailed(cause: TokenizerError) | PricingNotDefined(model: string)

  /** `{'tokens': ..., 'estimate_cost': ..., 'model': ...}` */
  datatype Estimate = Estimate(tokens: nat, estimateCost: real, model: string)

  /** `estimate_cost(text, model)`: a tokenizer failure comes first; a
      model the tokenizer knows but the table does not is a ValueError. */
  function EstimateCost(encodingFor: EncodingForModel, text: string, model: string): (r: Result<Estimate, EstimateError>)
    ensures encodingFor(model).None? ==> r == Failure(TokenizerFailed(UnsupportedModel(model)))
    ensures encodingFor(model).Some? && !Dict.HasKey(ExercisePricing, model) ==> r == Failure(PricingNotDefined(model))
    ensures r.Success? <==> encodingFor(model).Some? && Dict.HasKey(ExercisePricing, model)
    ensures r.Success? ==>
      && r.value.tokens == |encodingFor(model).value(text)|
      && r.value.model == model
      && r.value.estimateCost >= 0.0
  {
    match CountTokens(encodingFor, text, model)
    case Failure(e) => Failure(TokenizerFailed(e))
    case Success(inputTokens) =>
      match Dict.Get(ExercisePricing, model)
      case None => Failure(PricingNotDefined(model))
      case Some(rate) =>
        Dict.GetFound(ExercisePricing, model);
        TokenCostNonNegative(inputTokens, rate.input);
        TokenCostNonNegative(OutputTokens, rate.output);
        var inputCost := TokenCost(inputTokens, rate.input);
        var outputCost := TokenCost(OutputTokens, rate.output);
        Success(Estimate(inputTokens, inputCost + outputCost, model))
  }

  /** The estimate is calculate_cost's total for the same input tokens and
      100 output tokens. */
  lemma EstimateAgreesWithCalculator(encodingFor: EncodingForModel, text: string, model: string)
    requires EstimateCost(encodingFor, text, model).Success?
    ensures var e := EstimateCost(encodingFor, text, model).value;
      var c := PricingCalculator.CalculateCost(PricingCalculator.PricingData, e.tokens, OutputTokens, model);
      c.Success? && c.value.totalCost == e.estimateCost
  {
    PricingCalculator.PricingDataShape();
    Dict.GetFound(ExercisePricing, model);
    if model == "gpt-3.5-turbo" {
      Dict.GetAt(PricingCalculator.PricingData, 0);
    } else if model == "gpt-4" {
      Dict.GetAt(PricingCalculator.PricingData, 2);
    } else {
      Dict.GetAt(PricingCalculator.PricingData, 4);
    }
  }

  /** The estimate depends on the text only through its token count. */
  lemma EstimateDependsOnTokensOnly(encodingFor: EncodingForModel, t1: string, t2: string, model: string)
    requires EstimateCost(encodingFor, t1, model).Success?
    requires |encodingFor(model).value(t1)| == |encodingFor(model).value(t2)|
    ensures EstimateCost(encodingFor, t2, model).Success?
    ensures EstimateCost(encodingFor, t2, model).value.estimateCost == EstimateCost(encodingFor, t1, model).value.estimateCost
  {
  }

  /** A longer encoding never costs less. */
  lemma EstimateMonotone(encodingFor: EncodingForModel, t1: string, t2: string, model: string)
    requires EstimateCost(encodingFor, t1, model).Success?
    requires |encodingFor(model).value(t1)| <= |encodingFor(model).value(t2)|
    ensures EstimateCost(encodingFor, t2, model).Success?
    ensures EstimateCost(encodingFor, t1, model).value.estimateCost <= EstimateCost(encodingFor, t2, model).value.estimateCost
  {
    Dict.GetFound(ExercisePricing, model);
    var rate := Dict.Get(ExercisePricing, model).value;
    TokenCostMonotone(|encodingFor(model).value(t1)|, |encodingFor(model).value(t2)|, rate.input);
  }

  /** An empty encoding still pays for the 100 output tokens:
      100 / 1,000,000 of the output price. */
  lemma EstimateOfNoInputTokens(encodingFor: EncodingForModel, text: string)
    requires encodingFor("gpt-3.5-turbo").Some? && |encodingFor("gpt-3.5-turbo").value(text)| == 0
    ensures EstimateCost(encodingFor, text, "gpt-3.5-turbo") == Success(Estimate(0, 0.00015, "gpt-3.5-turbo"))
  {
    Dict.GetAt(ExercisePricing, 0);
  }

  /** A model the tokenizer knows but the table lacks is rejected. */
  lemma UnpricedModelRejected(encodingFor: EncodingForModel, text: string)
    requires encodingFor("gpt-4o-mini").Some?
    ensures EstimateCost(encodingFor, text, "gpt-4o-mini") == Failure(PricingNotDefined("gpt-4o-mini"))
  {
  }
}
