# Usage-cost estimator of the Gen-AI introduction module

This project models the usage-cost estimator of the introductory Gen-AI course module in Dafny and proves properties of that model. The estimator is spread across four Python scripts:

- `examples/pricing_calculator.py` holds a price table of eight models. Prices are in USD per 1,000,000 input or output tokens, and each model has a context window. On top of the table sit five estimators:
  - the cost of one call;
  - a 30-day monthly and a yearly projection;
  - a budget planner that inverts the per-request cost;
  - a comparison of models, ranked by cost, with a "× cheapest" multiplier;
  - a recommender that picks the cheapest and the midpoint model and lists the large-context models.
- `examples/token_counting.py` counts the tokens of a chat conversation per role, plus the formatting overhead. It also holds the "fits in 80% of the context window" test, a one-request cost estimate and a token-per-word efficiency rating.
- `answers/exercises/temperature.py` measures how much two responses differ: a character-difference count, scaled by the prompt length and rated High, Medium or Low.
- `answers/exercises/token_count.py` is an exercise version of the one-request estimate, with a fixed 100 output tokens.

Layout, one module per file:

- `wrappers.dfy` defines `Option` and `Result`.
- `dict.dfy` models a Python dict literal: an ordered sequence of key/value pairs with lookup.
- `stable_sort.dfy` models `list.sort(key=...)`. It is a stable insertion sort, proved sorted, a permutation of its input, and stable.
- `tokenizer.dfy` models the tokenizer library (tiktoken) as two function parameters: model name to encoding, and encoding of a text to token ids.
- `cost_formula.dfy` holds `(tokens / 1_000_000) * price`, the formula the three cost scripts share.
- `pricing_calculator.dfy`, `token_counting.dfy`, `temperature.dfy` and `token_count.dfy` each model one script.

Prices and costs are exact reals; float rounding is not modelled. Token counts are unbounded integers. Python's `int()` truncation and `//` are written out. Python exceptions become `Failure` values, in the order the code raises them:

- `ValueError` for an unknown model;
- `IndexError` on an empty result list;
- `ZeroDivisionError` in the efficiency analysis;
- a tokenizer's failure for a model it has no encoding for.

Code and documentation disagree in two places, and in both the model follows the code:

- The docstring of `estimate_conversation_tokens` (token_counting.py:126-132) shows `overhead: 3` and `total: 11` for a two-message conversation. The code gives an overhead of 9 and a total of the content tokens plus 9 (`TokenCounting.DocumentedConversation`).
- The docstring example of `calculate_cost` (pricing_calculator.py:73-79) shows a result with four keys and no `provider`. The code at pricing_calculator.py:90-96 returns five keys, including `'provider': pricing.provider`. `PricingCalculator.Breakdown` carries the provider, and `PricingCalculator.DocumentedExample` proves the five-field result for the example's inputs, with provider "OpenAI".

## Model

| member | source | states |
|---|---|---|
| Dict.Get | Part-A-Fundamentals/Module-01-Intro-to-Gen-AI/examples/pricing_calculator.py:81-84 | a dict lookup finds a value exactly when the key is present |
| Dict.GetFound | Part-A-Fundamentals/Module-01-Intro-to-Gen-AI/examples/pricing_calculator.py:84 | a successful lookup returns a value that the dict stores under that key |
| Dict.GetAt | Part-A-Fundamentals/Module-01-Intro-to-Gen-AI/examples/pricing_calculator.py:41-53 | in a dict with distinct keys, looking up an entry's key gives that entry's value |
| StableSort.Sort | Part-A-Fundamentals/Module-01-Intro-to-Gen-AI/examples/pricing_calculator.py:132 | `list.sort(key=...)`: the result is ascending by the key and a permutation (same multiset) of the input |
| StableSort.Insert | Part-A-Fundamentals/Module-01-Intro-to-Gen-AI/examples/pricing_calculator.py:132 | inserting one element keeps the length + 1 and the multiset, and keeps an ascending sequence ascending |
| StableSort.SortStable | Part-A-Fundamentals/Module-01-Intro-to-Gen-AI/examples/pricing_calculator.py:132 | the sort is stable: for every key value, the elements with that key keep their input order |
| StableSort.SortFirstIsLeast | Part-A-Fundamentals/Module-01-Intro-to-Gen-AI/examples/pricing_calculator.py:331-334 | after sorting, the first element's key is no larger than any input element's key |
| Tokenizer.CountTokens | Part-A-Fundamentals/Module-01-Intro-to-Gen-AI/examples/token_counting.py:23-40 | `count_tokens` fails exactly when the tokenizer has no encoding for the model; otherwise it is the length of the encoding, so never negative |
| CostFormula.TokenCost | Part-A-Fundamentals/Module-01-Intro-to-Gen-AI/examples/pricing_calculator.py:86-87 | (tokens / 1,000,000) × price: the cost times a million is tokens × price-per-million, the formula also used at token_counting.py:234-235 and token_count.py:22-23 |
| CostFormula.TokenCostNonNegative | Part-A-Fundamentals/Module-01-Intro-to-Gen-AI/examples/pricing_calculator.py:86-87 | non-negative tokens at a non-negative price cost at least 0 |
| CostFormula.TokenCostAdditive | Part-A-Fundamentals/Module-01-Intro-to-Gen-AI/examples/pricing_calculator.py:86-87 | the cost of a + b tokens is the cost of a plus the cost of b |
| CostFormula.TokenCostScales | Part-A-Fundamentals/Module-01-Intro-to-Gen-AI/examples/pricing_calculator.py:86-87 | k times the tokens cost k times as much |
| CostFormula.TokenCostMonotone | Part-A-Fundamentals/Module-01-Intro-to-Gen-AI/examples/pricing_calculator.py:86-87 | more tokens never cost less at a non-negative price |
| CostFormula.TokenCostOfMillion | Part-A-Fundamentals/Module-01-Intro-to-Gen-AI/examples/pricing_calculator.py:29-30 | prices are per million tokens: a million tokens cost exactly the price |
| PricingCalculator.PricingDataShape | Part-A-Fundamentals/Module-01-Intro-to-Gen-AI/examples/pricing_calculator.py:41-53 | the table has 8 entries with distinct keys, in insertion order; each entry's name is its key, and its prices and context window are positive |
| PricingCalculator.PricingOf | Part-A-Fundamentals/Module-01-Intro-to-Gen-AI/examples/pricing_calculator.py:84 | in a well-formed table, the pricing found under a name carries that name, positive prices and a positive context window |
| PricingCalculator.Pricing | Part-A-Fundamentals/Module-01-Intro-to-Gen-AI/examples/pricing_calculator.py:84 | `PRICING_DATA[model]`: the pricing is one the table stores under that name |
| PricingCalculator.Breakdown | Part-A-Fundamentals/Module-01-Intro-to-Gen-AI/examples/pricing_calculator.py:86-96 | the total is the input cost plus the output cost; model and provider are echoed |
| PricingCalculator.CalculateCost | Part-A-Fundamentals/Module-01-Intro-to-Gen-AI/examples/pricing_calculator.py:81-96 | fails with UnknownModel exactly when the name is not in the table, and never returns a cost then; otherwise gives the breakdown at the table's prices |
| PricingCalculator.CalculateCostFormula | Part-A-Fundamentals/Module-01-Intro-to-Gen-AI/examples/pricing_calculator.py:86-96 | input cost = in/1e6 × input price, output cost = out/1e6 × output price, total = their sum; model and provider come from the table |
| PricingCalculator.CalculateCostNonNegative | Part-A-Fundamentals/Module-01-Intro-to-Gen-AI/examples/pricing_calculator.py:86-88 | for non-negative token counts, all three costs are at least 0 |
| PricingCalculator.BreakdownLinear | Part-A-Fundamentals/Module-01-Intro-to-Gen-AI/examples/pricing_calculator.py:86-88 | scaling both token counts by k scales each of the three costs by k |
| PricingCalculator.CalculateCostLinear | Part-A-Fundamentals/Module-01-Intro-to-Gen-AI/examples/pricing_calculator.py:86-88 | calculate_cost is linear: k times the tokens give k times each cost |
| PricingCalculator.CalculateCostOfNothing | Part-A-Fundamentals/Module-01-Intro-to-Gen-AI/examples/pricing_calculator.py:86-88 | zero tokens cost nothing |
| PricingCalculator.CalculateCostOfMillionInputTokens | Part-A-Fundamentals/Module-01-Intro-to-Gen-AI/examples/pricing_calculator.py:86 | a million input tokens cost the model's input price |
| PricingCalculator.DocumentedExample | Part-A-Fundamentals/Module-01-Intro-to-Gen-AI/examples/pricing_calculator.py:72-79 | 1000 input and 500 output tokens on gpt-3.5-turbo cost 0.0005 + 0.00075 = 0.00125, with provider OpenAI |
| PricingCalculator.UnknownModelRejected | Part-A-Fundamentals/Module-01-Intro-to-Gen-AI/examples/pricing_calculator.py:81-82 | a name outside the table is rejected with UnknownModel |
| PricingCalculator.EstimateMonthlyCost | Part-A-Fundamentals/Module-01-Intro-to-Gen-AI/examples/pricing_calculator.py:161-178 | fails exactly for unknown models; monthly requests = 30 × rpd; the monthly tokens are those requests times the averages; the monthly cost is calculate_cost on those tokens; yearly = monthly × 12; daily × 30 = monthly |
| PricingCalculator.MonthlyCostIsRequestsTimesRequestCost | Part-A-Fundamentals/Module-01-Intro-to-Gen-AI/examples/pricing_calculator.py:161-176 | the projections are 30 × rpd (monthly), rpd (daily) and 360 × rpd (yearly) times the cost of one average request |
| PricingCalculator.TruncateToInt | Part-A-Fundamentals/Module-01-Intro-to-Gen-AI/examples/pricing_calculator.py:265 | Python `int()` truncates toward zero: the floor for non-negative values, the ceiling for negative ones |
| PricingCalculator.FloorDiv | Part-A-Fundamentals/Module-01-Intro-to-Gen-AI/examples/pricing_calculator.py:272-273 | `n // d` for d > 0 is the q with q·d ≤ n < q·d + d |
| PricingCalculator.TruncatedQuotient | Part-A-Fundamentals/Module-01-Intro-to-Gen-AI/examples/pricing_calculator.py:265 | int(budget / c) is the number of whole requests of cost c that fit within the budget (rounded toward zero for a negative budget) |
| PricingCalculator.BudgetPlanner | Part-A-Fundamentals/Module-01-Intro-to-Gen-AI/examples/pricing_calculator.py:259-274 | fails exactly for unknown models; prices a 200-in/100-out request; max·c ≤ budget < (max+1)·c when c > 0 and budget ≥ 0 (mirrored for negative budgets); max = 0 when c ≤ 0; the per-day figures are max // 30 and max // 365 |
| PricingCalculator.CostPerRequestPositive | Part-A-Fundamentals/Module-01-Intro-to-Gen-AI/examples/pricing_calculator.py:263-265 | with a well-formed table the typical request costs more than 0, so the planner never takes the `else 0` branch |
| PricingCalculator.PositiveTokensCostSomething | Part-A-Fundamentals/Module-01-Intro-to-Gen-AI/examples/pricing_calculator.py:86-88 | in a well-formed table, non-negative token counts with at least one token cost more than 0 |
| PricingCalculator.BudgetInvertsRequestCost | Part-A-Fundamentals/Module-01-Intro-to-Gen-AI/examples/pricing_calculator.py:263-265 | a budget worth n + f typical requests (0 ≤ f < 1) buys exactly n requests |
| PricingCalculator.KnownCostsAreTheKnownNames | Part-A-Fundamentals/Module-01-Intro-to-Gen-AI/examples/pricing_calculator.py:125-129 | names not in the table are skipped, not raised: every collected breakdown is calculate_cost of a requested, known name, and every requested known name is collected |
| PricingCalculator.KnownCostsEmpty | Part-A-Fundamentals/Module-01-Intro-to-Gen-AI/examples/pricing_calculator.py:125-133 | nothing is collected exactly when no requested name is known (the case that fails at `results[0]`) |
| PricingCalculator.MultiplierAtLeastOne | Part-A-Fundamentals/Module-01-Intro-to-Gen-AI/examples/pricing_calculator.py:138 | with a positive cheapest cost, a cost no smaller than the cheapest has multiplier ≥ 1 |
| PricingCalculator.Requested | Part-A-Fundamentals/Module-01-Intro-to-Gen-AI/examples/pricing_calculator.py:112-113 | the given list of models, or, when none is given, all table keys in table order |
| PricingCalculator.KnownCosts | Part-A-Fundamentals/Module-01-Intro-to-Gen-AI/examples/pricing_calculator.py:125-129 | the collected breakdowns are no more than the requested names, and one per name when every name is known |
| PricingCalculator.KnownCostsPositive | Part-A-Fundamentals/Module-01-Intro-to-Gen-AI/examples/pricing_calculator.py:125-129 | in a well-formed table, every collected breakdown of priced tokens costs more than 0 |
| PricingCalculator.CheapestKnownCostPositive | Part-A-Fundamentals/Module-01-Intro-to-Gen-AI/examples/pricing_calculator.py:132-133 | in a well-formed table, for non-negative token counts with at least one token, the cheapest collected cost is positive, so the multiplier guard at :138 takes the division; at zero tokens every cost is 0 and the guard gives 0 |
| PricingCalculator.Multiplier | Part-A-Fundamentals/Module-01-Intro-to-Gen-AI/examples/pricing_calculator.py:138 | the multiplier times a positive cheapest cost gives back the cost; it is 0 when the cheapest cost is not positive |
| PricingCalculator.CompareModels | Part-A-Fundamentals/Module-01-Intro-to-Gen-AI/examples/pricing_calculator.py:112-138 | the requested models (all table keys when none are given) have their known costs sorted by total cost; NoResults exactly when that list is empty; one row per ranked breakdown, ascending, with the multiplier relative to the first; all multipliers ≥ 1 when the cheapest cost is positive, which holds for a well-formed table and non-negative token counts with at least one token |
| PricingCalculator.MultiplierRows | Part-A-Fundamentals/Module-01-Intro-to-Gen-AI/examples/pricing_calculator.py:133-138 | every row pairs a ranked breakdown with `cost / cheapest` (0 when the cheapest is not positive); order is kept; multipliers are ≥ 1 when the cheapest is positive |
| PricingCalculator.TableCosts | Part-A-Fundamentals/Module-01-Intro-to-Gen-AI/examples/pricing_calculator.py:320-328 | one cost entry per table model at the given total token counts |
| PricingCalculator.LargeContextEntries | Part-A-Fundamentals/Module-01-Intro-to-Gen-AI/examples/pricing_calculator.py:346-347 | the listed entries are no more than the ranked ones and all have a context window of at least 16000 |
| PricingCalculator.LargeContextEntriesExactly | Part-A-Fundamentals/Module-01-Intro-to-Gen-AI/examples/pricing_calculator.py:346-348 | the listed entries are exactly those with a context window of at least 16000 (inclusive), and they stay in sorted order |
| PricingCalculator.LargeContextModels | Part-A-Fundamentals/Module-01-Intro-to-Gen-AI/examples/pricing_calculator.py:346-348 | the filtering loop lists the large-context entries, in order |
| PricingCalculator.OptimizeModelSelection | Part-A-Fundamentals/Module-01-Intro-to-Gen-AI/examples/pricing_calculator.py:320-348 | costs every table model at requests × averages and sorts by cost; the economical pick is index 0 and costs no more than any model; the balanced pick is index len // 2; the large-context list exists exactly when average input > 2000 and is the filter of the ranking; an empty table fails at `costs[0]` |
| TokenCounting.EstimateConversationTokens | Part-A-Fundamentals/Module-01-Intro-to-Gen-AI/examples/token_counting.py:134-173 | fails exactly when the tokenizer has no encoding; the counters have the five keys; each role bucket (a missing role counting as user) is the content tokens of its messages; overhead = 3 per message + 1 per name + 3 (+ content of role "overhead"); total = system + user + assistant + overhead (+ content of role "total") |
| TokenCounting.CountMessage | Part-A-Fundamentals/Module-01-Intro-to-Gen-AI/examples/token_counting.py:150-165 | one message adds its content tokens to its role's counter only when the role is a key, and 3 (+1 with a name) to overhead; nothing else changes |
| TokenCounting.RoleOf | Part-A-Fundamentals/Module-01-Intro-to-Gen-AI/examples/token_counting.py:150 | a missing role is read as "user", a present one as itself |
| TokenCounting.ContentOf | Part-A-Fundamentals/Module-01-Intro-to-Gen-AI/examples/token_counting.py:151 | missing content is read as the empty text, present content as itself |
| TokenCounting.RoleTokens | Part-A-Fundamentals/Module-01-Intro-to-Gen-AI/examples/token_counting.py:154-158 | the content tokens that reach one role's counter never exceed all content tokens |
| TokenCounting.NamedCount | Part-A-Fundamentals/Module-01-Intro-to-Gen-AI/examples/token_counting.py:164-165 | the name tokens added never exceed one per message |
| TokenCounting.Overhead | Part-A-Fundamentals/Module-01-Intro-to-Gen-AI/examples/token_counting.py:146-168 | apart from content of role "overhead", the final overhead lies between 3 per message + 3 and 4 per message + 3 |
| TokenCounting.CountersPartitionContent | Part-A-Fundamentals/Module-01-Intro-to-Gen-AI/examples/token_counting.py:154-158 | the five buckets plus the tokens of messages with other roles add up to all content tokens: other roles are counted nowhere |
| TokenCounting.UnusedRoleCountsNothing | Part-A-Fundamentals/Module-01-Intro-to-Gen-AI/examples/token_counting.py:157-158 | a role no message has gets no content tokens |
| TokenCounting.NamedCountBounds | Part-A-Fundamentals/Module-01-Intro-to-Gen-AI/examples/token_counting.py:164-165 | there are at most as many names as messages, and the count is 0 exactly when no message has a name |
| TokenCounting.PlainOverhead | Part-A-Fundamentals/Module-01-Intro-to-Gen-AI/examples/token_counting.py:146-168 | without names and without the role "overhead", overhead = 3 × messages + 3, whatever the content |
| TokenCounting.DocumentedConversation | Part-A-Fundamentals/Module-01-Intro-to-Gen-AI/examples/token_counting.py:127-132 | the documented two-message conversation has overhead 9 and buckets equal to each message's tokens |
| TokenCounting.Fits | Part-A-Fundamentals/Module-01-Intro-to-Gen-AI/examples/token_counting.py:201 | `token_count < limit × 0.8` holds exactly when 5 × tokens < 4 × limit |
| TokenCounting.FitsMonotone | Part-A-Fundamentals/Module-01-Intro-to-Gen-AI/examples/token_counting.py:201 | fewer tokens or a larger window never stop a text from fitting |
| TokenCounting.FitsIsStrict | Part-A-Fundamentals/Module-01-Intro-to-Gen-AI/examples/token_counting.py:201 | a text of exactly 80% of the window does not fit |
| TokenCounting.ContextLimitsAgreeWithPricing | Part-A-Fundamentals/Module-01-Intro-to-Gen-AI/examples/token_counting.py:185-191 | every listed context limit is the context limit of that model in the pricing table |
| TokenCounting.EstimateCostBreakdown | Part-A-Fundamentals/Module-01-Intro-to-Gen-AI/examples/token_counting.py:221-249 | a model outside its 3-entry table returns early, before any tokenizing; otherwise a tokenizer failure; otherwise in/out tokens, total tokens, total = input + output cost, and per-1,000 = 1000 × total |
| TokenCounting.EstimateAgreesWithCalculator | Part-A-Fundamentals/Module-01-Intro-to-Gen-AI/examples/token_counting.py:221-236 | the local rates agree with the pricing table, so the three costs equal calculate_cost's for the same token counts |
| TokenCounting.EstimateNonNegative | Part-A-Fundamentals/Module-01-Intro-to-Gen-AI/examples/token_counting.py:234-249 | with a non-negative output count, every cost figure is at least 0 |
| TokenCounting.WordCountZero | Part-A-Fundamentals/Module-01-Intro-to-Gen-AI/examples/token_counting.py:261 | `len(prompt.split())` is at most the length, and 0 exactly when the prompt is all whitespace |
| TokenCounting.RatingOf | Part-A-Fundamentals/Module-01-Intro-to-Gen-AI/examples/token_counting.py:277-282 | Excellent iff tokens/words < 1.3, Good iff 1.3 ≤ ratio < 1.5, Poor iff ratio ≥ 1.5 (stated over whole numbers) |
| TokenCounting.RatingMonotone | Part-A-Fundamentals/Module-01-Intro-to-Gen-AI/examples/token_counting.py:277-282 | more tokens for the same words never improve the rating |
| TokenCounting.AnalyzePromptEfficiency | Part-A-Fundamentals/Module-01-Intro-to-Gen-AI/examples/token_counting.py:260-282 | counts with the default model; succeeds exactly when the tokenizer works and both the token and the word count are positive, and otherwise divides by zero; chars/token and tokens/word are the quotients; the rating follows them |
| TokenCounting.WordCount | Part-A-Fundamentals/Module-01-Intro-to-Gen-AI/examples/token_counting.py:261 | `len(prompt.split())` never exceeds the number of characters |
| Temperature.Mismatches | Part-A-Fundamentals/Module-01-Intro-to-Gen-AI/answers/exercises/temperature.py:40 | the `zip` sum is the number of differing positions below the shorter length, so at most that length |
| Temperature.CountDifferences | Part-A-Fundamentals/Module-01-Intro-to-Gen-AI/answers/exercises/temperature.py:39-43 | `count_differences` is the number of differing positions below the shorter length plus the absolute length difference |
| Temperature.MismatchesBelowCountsPositions | Part-A-Fundamentals/Module-01-Intro-to-Gen-AI/answers/exercises/temperature.py:40 | the sum over `zip` is the number of positions below the shorter length where the strings differ |
| Temperature.CountDifferencesSelf | Part-A-Fundamentals/Module-01-Intro-to-Gen-AI/answers/exercises/temperature.py:39-43 | a string differs from itself in 0 places |
| Temperature.CountDifferencesZero | Part-A-Fundamentals/Module-01-Intro-to-Gen-AI/answers/exercises/temperature.py:39-43 | the count is 0 exactly when the strings are equal |
| Temperature.CountDifferencesSymmetric | Part-A-Fundamentals/Module-01-Intro-to-Gen-AI/answers/exercises/temperature.py:39-43 | the count does not depend on the argument order |
| Temperature.CountDifferencesBounds | Part-A-Fundamentals/Module-01-Intro-to-Gen-AI/answers/exercises/temperature.py:39-43 | the count lies between the length difference and the longer length |
| Temperature.DiffBelowIsCountDifferences | Part-A-Fundamentals/Module-01-Intro-to-Gen-AI/answers/exercises/temperature.py:39-43 | the count is the number of positions, up to any bound past both lengths, where the strings differ or only one has a character |
| Temperature.CountDifferencesTriangle | Part-A-Fundamentals/Module-01-Intro-to-Gen-AI/answers/exercises/temperature.py:39-43 | the count obeys the triangle inequality (with the two lemmas above, it is a distance) |
| Temperature.Ratio | Part-A-Fundamentals/Module-01-Intro-to-Gen-AI/answers/exercises/temperature.py:67 | the ratio is non-negative and, times max(len(prompt), 1), gives back the difference count: the denominator is the prompt's length and never 0 |
| Temperature.Classify | Part-A-Fundamentals/Module-01-Intro-to-Gen-AI/answers/exercises/temperature.py:69-74 | High iff ratio > 0.7, Medium iff 0.4 < ratio ≤ 0.7, Low iff ratio ≤ 0.4: exactly one label |
| Temperature.ClassifyMonotone | Part-A-Fundamentals/Module-01-Intro-to-Gen-AI/answers/exercises/temperature.py:69-74 | a larger ratio never gives a lower label |
| Temperature.VariationOf | Part-A-Fundamentals/Module-01-Intro-to-Gen-AI/answers/exercises/temperature.py:66-74 | two responses rate High iff 10 × differences > 7 × max(len(prompt), 1), Medium iff between the 40% and 70% marks, Low otherwise |
| Temperature.IdenticalResponsesAreLow | Part-A-Fundamentals/Module-01-Intro-to-Gen-AI/answers/exercises/temperature.py:66-74 | two identical responses rate Low |
| TokenCount.EstimateCost | Part-A-Fundamentals/Module-01-Intro-to-Gen-AI/answers/exercises/token_count.py:9-30 | the tokenizer runs first, so its failure pre-empts the ValueError; a tokenized model outside the 3-entry table gives PricingNotDefined; on success tokens = encoding length, model echoed, cost ≥ 0 |
| TokenCount.EstimateAgreesWithCalculator | Part-A-Fundamentals/Module-01-Intro-to-Gen-AI/answers/exercises/token_count.py:10-24 | the estimate is calculate_cost's total for the input tokens and 100 output tokens |
| TokenCount.EstimateDependsOnTokensOnly | Part-A-Fundamentals/Module-01-Intro-to-Gen-AI/answers/exercises/token_count.py:10-24 | texts with equally many tokens get the same estimate: the output count is fixed, whatever the input |
| TokenCount.EstimateMonotone | Part-A-Fundamentals/Module-01-Intro-to-Gen-AI/answers/exercises/token_count.py:22-24 | more input tokens never give a smaller estimate |
| TokenCount.EstimateOfNoInputTokens | Part-A-Fundamentals/Module-01-Intro-to-Gen-AI/answers/exercises/token_count.py:10-24 | with no input tokens, gpt-3.5-turbo still charges the 100 output tokens: 0.00015 |
| TokenCount.UnpricedModelRejected | Part-A-Fundamentals/Module-01-Intro-to-Gen-AI/answers/exercises/token_count.py:19-20 | a model the tokenizer knows but the table lacks (gpt-4o-mini) is rejected with PricingNotDefined |

The contracts above use these definitions, which stand for source expressions and data and so have no row of their own:

- `PricingCalculator.PricingData`: the table literal at pricing_calculator.py:41-53.
- `PricingCalculator.TotalCostOf`: the sort key `lambda x: x['total_cost']` at pricing_calculator.py:132.
- `PricingCalculator.EntryCost`: the sort key of the cost entries at pricing_calculator.py:331.
- `PricingCalculator.HasLargeContext`: the condition `context_limit >= 16000` at pricing_calculator.py:347.
- `PricingCalculator.TypicalRequestCost`: the 200-input, 100-output request cost at pricing_calculator.py:260-263.
- `TokenCounting.ContextLimits` and `TokenCounting.BreakdownPricing`: the literals at token_counting.py:185-191 and token_counting.py:221-225.
- `TokenCounting.IsSpace` and `TokenCounting.WordStart`: the whitespace test and word boundaries of `split()` at token_counting.py:261.
- `Temperature.MismatchesBelow`: the `zip` sum at temperature.py:40, taken over a prefix.
- `TokenCount.ExercisePricing`: the table literal at token_count.py:13-17.

## Left out

- Printing: the banners, column widths, `$` and `x` suffixes, `:,` and `:.2f` formatting, and the `prompt[:100]` preview. `compare_models`, `optimize_model_selection`, `estimate_cost_breakdown` and `analyze_prompt_efficiency` return nothing and print their figures. The model returns those figures as values.
- `scenario_analysis`, `print_budget_analysis` and the `main` functions: they only call the modelled operations on fixed inputs and print the results.
- `visualize_tokenization` and `compare_tokenization_examples`: they decode tokens one by one, which is inside the tokenizer library.
- The tokenizer itself: encodings are parameters, so no statement depends on how a text is split into tokens. Counts of concrete texts, like the `"AI " * 1000` sample of `demonstrate_context_limits`, are not modelled. That function's loop only prints `Fits` for each listed limit.
- `openAI` and the API-calling loop of `temperature_effect`, including its error handling. Their results are the `prev` and `curr` arguments of `Temperature.VariationOf`. The temperature list at temperature.py:46 is never passed to the call.
- Float rounding: prices and costs are exact reals, so `0.0005 + 0.00075 == 0.00125` holds exactly.
- `PricingCalculator`: every operation takes the price table as an argument instead of reading the module-level `PRICING_DATA`. `PricingData` is that table. The general lemmas hold for any table with distinct keys, matching names and positive prices.
- `TokenCounting.Message`: a message dict is a record with the three keys the scripts read (`role`, `content`, `name`). A `name` counts when its key is present, whatever its value. The scripts ignore any other key.
- `TokenCounting.EstimateConversationTokens`: `sum(token_counts.values())` is written as the sum of the five fixed keys. Python does not overflow, and neither does the model.
- Default arguments: `count_tokens`, `estimate_conversation_tokens` and `estimate_cost_breakdown` default `model` to `"gpt-3.5-turbo"`, and `estimate_cost_breakdown` defaults `expected_output_tokens` to 100. Dafny has no default arguments, so `Tokenizer.CountTokens`, `TokenCounting.EstimateConversationTokens` and `TokenCounting.EstimateCostBreakdown` take them as parameters, and a call without them is a call with `DefaultModel` (and 100). `TokenCounting.AnalyzePromptEfficiency` uses `DefaultModel` itself, as the code does.
- Tables with repeated keys: a Python dict literal keeps one entry per key, the last one written, while `Dict.Get` on a sequence of pairs returns the first. Every table in the scripts has distinct keys (`PricingCalculator.PricingDataShape` proves it for `PricingData`), so the operations' results are the scripts' results only for tables with distinct keys; a table with a repeated key stands for no Python dict and is outside the model.
