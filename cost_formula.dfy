/** The cost formula shared by the three cost estimators: prices are quoted
    in USD per 1,000,000 tokens, and `n` tokens at price `p` cost
    `(n / 1_000_000) * p`. Exact real arithmetic: float rounding is not
    modelled. */
module CostFormula {

  /** `{"input": p, "output": q}`: the prices of a small local pricing table,
      in USD per 1,000,000 tokens. */
  datatype Rate = Rate(input: real, output: real)

  /** `(tokens / 1_000_000) * price_per_million` */
  function TokenCost(tokens: int, pricePerMillion: real): (r: real)
    ensures r * 1000000.0 == tokens as real * pricePerMillion
  {
    (tokens as real / 1000000.0) * pricePerMillion
  }

  lemma TokenCostNonNegative(tokens: int, pricePerMillion: real)
    requires tokens >= 0 && pricePerMillion >= 0.0
    ensures TokenCost(tokens, pricePerMillion) >= 0.0
  {
  }

  /** A million tokens cost exactly the quoted price. */
  lemma TokenCostOfMillion(pricePerMillion: real)
    ensures TokenCost(1000000, pricePerMillion) == pricePerMillion
  {
  }

  /** Linear in the token count: additive ... */
  lemma TokenCostAdditive(a: int, b: int, pricePerMillion: real)
    ensures TokenCost(a + b, pricePerMillion) == TokenCost(a, pricePerMillion) + TokenCost(b, pricePerMillion)
  {
  }

  /** ... and homogeneous. */
  lemma TokenCostScales(factor: int, tokens: int, pricePerMillion: real)
    ensures TokenCost(factor * tokens, pricePerMillion) == factor as real * TokenCost(tokens, pricePerMillion)
  {
    assert (factor * tokens) as real == factor as real * tokens as real;
  }

  /** More tokens never cost less at a non-negative price. */
  lemma TokenCostMonotone(a: int, b: int, pricePerMillion: real)
    requires a <= b && pricePerMillion >= 0.0
    ensures TokenCost(a, pricePerMillion) <= TokenCost(b, pricePerMillion)
  {
    TokenCostAdditive(a, b - a, pricePerMillion);
    TokenCostNonNegative(b - a, pricePerMillion);
  }
}
