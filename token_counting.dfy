/** Token accounting of `examples/token_counting.py`: the per-role token
    counters of a chat conversation, the "fits in 80% of the context window"
    test, the single-request cost estimate and the token/word efficiency
    rating. The tokenizer is a parameter (module Tokenizer). */
module TokenCounting {
  import opened Wrappers
  import Dict
  import opened Tokenizer
  import opened CostFormula
  import PricingCalculator

  /** The model `count_tokens` and `analyze_prompt_efficiency` use by default. */
  const DefaultModel: string := "gpt-3.5-turbo"

  // ---------------------------------------------------------------------
  // estimate_conversation_tokens

  /** A chat message: a dictionary in which `role`, `content` and `name`
      may each be missing. */
  datatype Message = Message(role: Option<string>, content: Option<string>, name: Option<string>)

  /** `message.get('role', 'user')` */
  function RoleOf(m: Message): (r: string)
    ensures m.role.None? ==> r == "user"
    ensures m.role.Some? ==> r == m.role.value
  {
    match m.role
    case None => "user"
    case Some(r) => r
  }

  /** `message.get('content', '')` */
  function ContentOf(m: Message): (c: string)
    ensures m.content.None? ==> c == ""
    ensures m.content.Some? ==> c == m.content.value
  {
    match m.content
    case None => ""
    case Some(c) => c
  }

  const TokensPerMessage: int := 3
  const TokensPerName: int := 1
  /** Tokens added once for priming the assistant's reply. */
  const ReplyPriming: int := 3

  /** The keys of the counters dictionary. */
  const CounterKeys: set<string> := {"system", "user", "assistant", "overhead", "total"}

  /** The content tokens of the messages whose role is `role`. */
  function RoleTokens(encoding: Encoding, ms: seq<Message>, role: string): (n: nat)
    ensures n <= ContentTokens(encoding, ms)
  {
    if ms == [] then 0
    else
      var last := ms[|ms| - 1];
      RoleTokens(encoding, ms[..|ms| - 1], role) + (if RoleOf(last) == role then |encoding(ContentOf(last))| else 0)
  }

  /** The number of messages that carry a `name` key. */
  function NamedCount(ms: seq<Message>): (n: nat)
    ensures n <= |ms|
  {
    if ms == [] then 0
    else NamedCount(ms[..|ms| - 1]) + (if ms[|ms| - 1].name.Some? then 1 else 0)
  }

  /** The content tokens of every message, whatever its role. */
  function ContentTokens(encoding: Encoding, ms: seq<Message>): nat
  {
    if ms == [] then 0
    else ContentTokens(encoding, ms[..|ms| - 1]) + |encoding(ContentOf(ms[|ms| - 1]))|
  }

  /** The content tokens of the messages whose role is not a counter key:
      these are counted nowhere. */
  function UncountedTokens(encoding: Encoding, ms: seq<Message>): nat
  {
    if ms == [] then 0
    else
      var last := ms[|ms| - 1];
      UncountedTokens(encoding, ms[..|ms| - 1]) + (if RoleOf(last) !in CounterKeys then |encoding(ContentOf(last))| else 0)
  }

  /** The final `overhead` counter: 3 per message, 1 per name, 3 for the
      reply, plus the content of messages whose role is literally
      "overhead" (that role is a key of the dictionary too). */
  function Overhead(encoding: Encoding, ms: seq<Message>): (n: nat)
    ensures 3 * |ms| + 3 <= n - RoleTokens(encoding, ms, "overhead") <= 4 * |ms| + 3
  {
    TokensPerMessage * |ms| + TokensPerName * NamedCount(ms) + ReplyPriming + RoleTokens(encoding, ms, "overhead")
  }

  /** Counts the tokens of a conversation: the content tokens per role
      (system, user, assistant), the formatting overhead and the total.
      Fails when the tokenizer has no encoding for the model. */
  method EstimateConversationTokens(encodingFor: EncodingForModel, messages: seq<Message>, model: string)
    returns (r: Result<map<string, int>, TokenizerError>)
    ensures r.Failure? <==> encodingFor(model).None?
    ensures r.Failure? ==> r.error == UnsupportedModel(model)
    ensures r.Success? ==>
      var encoding := encodingFor(model).value;
      var counts := r.value;
      && counts.Keys == CounterKeys
      && counts["system"] == RoleTokens(encoding, messages, "system")
      && counts["user"] == RoleTokens(encoding, messages, "user")
      && counts["assistant"] == RoleTokens(encoding, messages, "assistant")
      && counts["overhead"] == Overhead(encoding, messages)
      && counts["total"] == counts["system"] + counts["user"] + counts["assistant"] + counts["overhead"]
                            + RoleTokens(encoding, messages, "total")
  {
    if encodingFor(model).None? {
      return Failure(UnsupportedModel(model));
    }
    var encoding := encodingFor(model).value;
    var counts: map<string, int> := map["system" := 0, "user" := 0, "assistant" := 0, "overhead" := 0, "total" := 0];
    for i := 0 to |messages|
      invariant counts.Keys == CounterKeys
      invariant counts["system"] == RoleTokens(encoding, messages[..i], "system")
      invariant counts["user"] == RoleTokens(encoding, messages[..i], "user")
      invariant counts["assistant"] == RoleTokens(encoding, messages[..i], "assistant")
      invariant counts["total"] == RoleTokens(encoding, messages[..i], "total")
      invariant counts["overhead"] == TokensPerMessage * i + TokensPerName * NamedCount(messages[..i])
                                      + RoleTokens(encoding, messages[..i], "overhead")
    {
      assert messages[..i + 1][..i] == messages[..i];
      counts := CountMessage(encoding, counts, messages[i]);
    }
    assert messages[..|messages|] == messages;
    counts := counts["overhead" := counts["overhead"] + ReplyPriming];
    // sum(token_counts.values()) over the five keys, before `total` is replaced
    var sum := counts["system"] + counts["user"] + counts["assistant"] + counts["overhead"] + counts["total"];
    counts := counts["total" := sum - counts["overhead"] + counts["overhead"]];
    r := Success(counts);
  }

  /** The loop body of estimate_conversation_tokens: the content tokens go
      to the message's role when that role is a counter key, and the
      message's overhead (3, plus 1 for a name) to `overhead`. */
  method CountMessage(encoding: Encoding, counts: map<string, int>, message: Message) returns (updated: map<string, int>)
    requires counts.Keys == CounterKeys
    ensures updated.Keys == CounterKeys
    ensures forall k :: k in CounterKeys ==>
      updated[k] == counts[k] + (if RoleOf(message) == k then |encoding(ContentOf(message))| else 0)
                    + (if k == "overhead" then TokensPerMessage + (if message.name.Some? then TokensPerName else 0) else 0)
  {
    updated := counts;
    var role := RoleOf(message);
    var content := ContentOf(message);
    var contentTokens := |encoding(content)|;
    if role in updated {
      updated := updated[role := updated[role] + contentTokens];
    }
    updated := updated["overhead" := updated["overhead"] + TokensPerMessage];
    if message.name.Some? {
      updated := updated["overhead" := updated["overhead"] + TokensPerName];
    }
  }

  /** The buckets and the uncounted roles partition the content tokens. */
  lemma {:induction false} CountersPartitionContent(encoding: Encoding, ms: seq<Message>)
    ensures RoleTokens(encoding, ms, "system") + RoleTokens(encoding, ms, "user") + RoleTokens(encoding, ms, "assistant")
            + RoleTokens(encoding, ms, "overhead") + RoleTokens(encoding, ms, "total") + UncountedTokens(encoding, ms)
            == ContentTokens(encoding, ms)
  {
    if ms != [] {
      CountersPartitionContent(encoding, ms[..|ms| - 1]);
    }
  }

  /** A role nobody uses counts nothing. */
  lemma {:induction false} UnusedRoleCountsNothing(encoding: Encoding, ms: seq<Message>, role: string)
    requires forall i :: 0 <= i < |ms| ==> RoleOf(ms[i]) != role
    ensures RoleTokens(encoding, ms, role) == 0
  {
    if ms != [] {
      UnusedRoleCountsNothing(encoding, ms[..|ms| - 1], role);
    }
  }

  /** No more names than messages, and none exactly when no message has one. */
  lemma {:induction false} NamedCountBounds(ms: seq<Message>)
    ensures NamedCount(ms) <= |ms|
    ensures NamedCount(ms) == 0 <==> forall i :: 0 <= i < |ms| ==> ms[i].name.None?
  {
    if ms != [] {
      var init := ms[..|ms| - 1];
      NamedCountBounds(init);
      if NamedCount(ms) == 0 {
        forall i | 0 <= i < |ms| ensures ms[i].name.None? {
          if i < |init| {
            assert ms[i] == init[i];
          }
        }
      }
      if forall i :: 0 <= i < |ms| ==> ms[i].name.None? {
        assert forall i :: 0 <= i < |init| ==> init[i] == ms[i];
      }
    }
  }

  /** With no names and no message of role "overhead", the overhead is
      3 per message plus 3, whatever the content. */
  lemma PlainOverhead(encoding: Encoding, ms: seq<Message>)
    requires forall i :: 0 <= i < |ms| ==> ms[i].name.None? && RoleOf(ms[i]) != "overhead"
    ensures Overhead(encoding, ms) == 3 * |ms| + 3
  {
    NamedCountBounds(ms);
    UnusedRoleCountsNothing(encoding, ms, "overhead");
  }

  /** The two-message conversation of the function's documentation: the
      overhead is 9 (not the documented 3) and the total is the content
      tokens plus 9. */
  lemma DocumentedConversation(encoding: Encoding)
    ensures var ms := [Message(Some("system"), Some("You are helpful."), None),
                       Message(Some("user"), Some("Hello!"), None)];
      && Overhead(encoding, ms) == 9
      && RoleTokens(encoding, ms, "system") == |encoding("You are helpful.")|
      && RoleTokens(encoding, ms, "user") == |encoding("Hello!")|
      && RoleTokens(encoding, ms, "assistant") == 0
      && RoleTokens(encoding, ms, "total") == 0
  {
    var ms := [Message(Some("system"), Some("You are helpful."), None),
               Message(Some("user"), Some("Hello!"), None)];
    assert ms[..1][..0] == [];
    assert ms[..1] == [ms[0]];
    PlainOverhead(encoding, ms);
  }

  // ---------------------------------------------------------------------
  // demonstrate_context_limits

  /** The context limits listed by demonstrate_context_limits. */
  const ContextLimits: seq<(string, int)> := [
    ("gpt-3.5-turbo", 4096),
    ("gpt-3.5-turbo-16k", 16384),
    ("gpt-4", 8192),
    ("gpt-4-32k", 32768),
    ("gpt-4-turbo", 128000)
  ]

  /** `token_count < limit * 0.8`: the text leaves 20% of the window for the
      response (strictly). */
  function Fits(tokenCount: int, limit: int): (r: bool)
    ensures r <==> 5 * tokenCount < 4 * limit
  {
    tokenCount as real < limit as real * 0.8
  }

  /** Fewer tokens or a larger window never stop a text from fitting. */
  lemma FitsMonotone(t1: int, t2: int, l1: int, l2: int)
    requires t1 <= t2 && l2 <= l1
    ensures Fits(t2, l2) ==> Fits(t1, l1)
  {
  }

  /** A text of exactly 80% of the window does not fit. */
  lemma FitsIsStrict(limit: int)
    requires limit % 5 == 0
    ensures !Fits(limit / 5 * 4, limit)
  {
  }

  /** These limits are the context limits of the pricing table. */
  lemma ContextLimitsAgreeWithPricing()
    ensures forall i :: 0 <= i < |ContextLimits| ==>
      && Dict.HasKey(PricingCalculator.PricingData, ContextLimits[i].0)
      && PricingCalculator.Pricing(PricingCalculator.PricingData, ContextLimits[i].0).contextLimit == ContextLimits[i].1
  {
    PricingCalculator.PricingDataShape();
    forall i | 0 <= i < |ContextLimits|
      ensures Dict.HasKey(PricingCalculator.PricingData, ContextLimits[i].0)
      ensures PricingCalculator.Pricing(PricingCalculator.PricingData, ContextLimits[i].0).contextLimit == ContextLimits[i].1
    {
      Dict.GetAt(PricingCalculator.PricingData, i);
    }
  }

  // ---------------------------------------------------------------------
  // estimate_cost_breakdown

  /** The pricing table local to estimate_cost_breakdown. */
  const BreakdownPricing: seq<(string, Rate)> := [
    ("gpt-3.5-turbo", Rate(0.50, 1.50)),
    ("gpt-4", Rate(30.00, 60.00)),
    ("gpt-4-turbo", Rate(10.00, 30.00))
  ]

  datatype EstimateError = PricingNotAvailable(model: string) | TokenizerFailed(cause: TokenizerError)

  /** The figures estimate_cost_breakdown reports. */
  datatype CostEstimate = CostEstimate(
    inputTokens: nat, outputTokens: int, totalTokens: int,
    inputCost: real, outputCost: real, totalCost: real, costPer1kRequests: real)

  /** Estimates one request: the pricing check comes before the tokenizer,
      so an unpriced model never reaches it. */
  function EstimateCostBreakdown(encodingFor: EncodingForModel, inputText: string, expectedOutputTokens: int, model: string)
    : (r: Result<CostEstimate, EstimateError>)
    ensures !Dict.HasKey(BreakdownPricing, model) ==> r == Failure(PricingNotAvailable(model))
    ensures Dict.HasKey(BreakdownPricing, model) && encodingFor(model).None? ==>
      r == Failure(TokenizerFailed(UnsupportedModel(model)))
    ensures r.Success? <==> Dict.HasKey(BreakdownPricing, model) && encodingFor(model).Some?
    ensures r.Success? ==>
      && r.value.inputTokens == |encodingFor(model).value(inputText)|
      && r.value.outputTokens == expectedOutputTokens
      && r.value.totalTokens == r.value.inputTokens + r.value.outputTokens
      && r.value.totalCost == r.value.inputCost + r.value.outputCost
      && r.value.costPer1kRequests == 1000.0 * r.value.totalCost
  {
    match Dict.Get(BreakdownPricing, model)
    case None => Failure(PricingNotAvailable(model))
    case Some(rate) =>
      match CountTokens(encodingFor, inputText, model)
      case Failure(e) => Failure(TokenizerFailed(e))
      case Success(inputTokens) =>
        var inputCost := TokenCost(inputTokens, rate.input);
        var outputCost := TokenCost(expectedOutputTokens, rate.output);
        var totalCost := inputCost + outputCost;
        Success(CostEstimate(inputTokens, expectedOutputTokens, inputTokens + expectedOutputTokens,
                             inputCost, outputCost, totalCost, totalCost * 1000.0))
  }

  /** The local rates are those of the pricing table, so the estimate agrees
      with calculate_cost on the same token counts. */
  lemma EstimateAgreesWithCalculator(encodingFor: EncodingForModel, inputText: string, expectedOutputTokens: int, model: string)
    requires EstimateCostBreakdown(encodingFor, inputText, expectedOutputTokens, model).Success?
    ensures var e := EstimateCostBreakdown(encodingFor, inputText, expectedOutputTokens, model).value;
      var c := PricingCalculator.CalculateCost(PricingCalculator.PricingData, e.inputTokens, expectedOutputTokens, model);
      && c.Success?
      && c.value.inputCost == e.inputCost
      && c.value.outputCost == e.outputCost
      && c.value.totalCost == e.totalCost
  {
    PricingCalculator.PricingDataShape();
    Dict.GetFound(BreakdownPricing, model);
    if model == "gpt-3.5-turbo" {
      Dict.GetAt(PricingCalculator.PricingData, 0);
    } else if model == "gpt-4" {
      Dict.GetAt(PricingCalculator.PricingData, 2);
    } else {
      Dict.GetAt(PricingCalculator.PricingData, 4);
    }
  }

  /** A request with a non-negative expected output never costs less than 0. */
  lemma EstimateNonNegative(encodingFor: EncodingForModel, inputText: string, expectedOutputTokens: int, model: string)
    requires expectedOutputTokens >= 0
    requires EstimateCostBreakdown(encodingFor, inputText, expectedOutputTokens, model).Success?
    ensures var e := EstimateCostBreakdown(encodingFor, inputText, expectedOutputTokens, model).value;
      e.inputCost >= 0.0 && e.outputCost >= 0.0 && e.totalCost >= 0.0 && e.costPer1kRequests >= 0.0
  {
    Dict.GetFound(BreakdownPricing, model);
  }

  // ---------------------------------------------------------------------
  // analyze_prompt_efficiency

  /** Python's `str.isspace` characters, the separators of `str.split()`. */
  predicate IsSpace(c: char)
  {
    c == ' ' || '\t' <= c <= '\r' || '\U{1c}' <= c <= '\U{1f}' || c == '\U{85}' || c == '\U{a0}'
    || c == '\U{1680}' || '\U{2000}' <= c <= '\U{200a}' || c == '\U{2028}' || c == '\U{2029}'
    || c == '\U{202f}' || c == '\U{205f}' || c == '\U{3000}'
  }

  /** Whether a word starts at position i. */
  predicate WordStart(s: string, i: int)
    requires 0 <= i < |s|
  {
    !IsSpace(s[i]) && (i == 0 || IsSpace(s[i - 1]))
  }

  /** `len(s.split())`: the number of maximal runs of non-space characters. */
  function WordCount(s: string): (n: nat)
    ensures n <= |s|
  {
    if s == [] then 0
    else WordCount(s[..|s| - 1]) + (if WordStart(s, |s| - 1) then 1 else 0)
  }

  /** A text has no words exactly when it is all whitespace, and never more
      words than characters. */
  lemma {:induction false} WordCountZero(s: string)
    ensures WordCount(s) <= |s|
    ensures WordCount(s) == 0 <==> forall i :: 0 <= i < |s| ==> IsSpace(s[i])
  {
    if s != [] {
      var init := s[..|s| - 1];
      WordCountZero(init);
      assert forall i :: 0 <= i < |init| ==> init[i] == s[i];
    }
  }

  datatype Rating = Excellent | Good | Poor

  /** The rating of a tokens-per-word figure. */
  function RatingOf(tokenCount: nat, wordCount: nat): (r: Rating)
    requires wordCount > 0
    ensures r == Excellent <==> 10 * tokenCount < 13 * wordCount
    ensures r == Good <==> 13 * wordCount <= 10 * tokenCount < 15 * wordCount
    ensures r == Poor <==> 15 * wordCount <= 10 * tokenCount
  {
    var ratio := tokenCount as real / wordCount as real;
    QuotientBelow(tokenCount as real, wordCount as real, 1.3);
    QuotientBelow(tokenCount as real, wordCount as real, 1.5);
    if ratio < 1.3 then Excellent
    else if ratio < 1.5 then Good
    else Poor
  }

  /** Comparing a quotient is comparing the dividend with a multiple of the divisor. */
  lemma QuotientBelow(t: real, w: real, c: real)
    requires w > 0.0
    ensures t / w < c <==> t < c * w
  {
    var q := t / w;
    assert q * w == t;
    if q < c {
      assert q * w < c * w;
    } else {
      assert q * w >= c * w;
    }
  }

  /** The ratings in worsening order. */
  function RatingRank(r: Rating): nat
  {
    match r
    case Excellent => 0
    case Good => 1
    case Poor => 2
  }

  /** More tokens for the same words never improve the rating. */
  lemma RatingMonotone(t1: nat, t2: nat, wordCount: nat)
    requires wordCount > 0 && t1 <= t2
    ensures RatingRank(RatingOf(t1, wordCount)) <= RatingRank(RatingOf(t2, wordCount))
  {
  }

  datatype EfficiencyError = CountFailed(cause: TokenizerError) | ZeroDivision

  datatype Efficiency = Efficiency(
    charCount: nat, wordCount: nat, tokenCount: nat,
    charsPerToken: real, tokensPerWord: real, rating: Rating)

  /** The metrics of analyze_prompt_efficiency, with the default model. It
      divides by the token count first and then by the word count, so an
      empty or all-whitespace prompt raises ZeroDivisionError. */
  function AnalyzePromptEfficiency(encodingFor: EncodingForModel, prompt: string): (r: Result<Efficiency, EfficiencyError>)
    ensures encodingFor(DefaultModel).None? ==> r == Failure(CountFailed(UnsupportedModel(DefaultModel)))
    ensures r.Success? <==>
      encodingFor(DefaultModel).Some? && |encodingFor(DefaultModel).value(prompt)| > 0 && WordCount(prompt) > 0
    ensures encodingFor(DefaultModel).Some? && !r.Success? ==> r == Failure(ZeroDivision)
    ensures r.Success? ==>
      && r.value.tokenCount == |encodingFor(DefaultModel).value(prompt)|
      && r.value.wordCount == WordCount(prompt)
      && r.value.charCount == |prompt|
      && r.value.charsPerToken * r.value.tokenCount as real == |prompt| as real
      && r.value.tokensPerWord * r.value.wordCount as real == r.value.tokenCount as real
      && r.value.rating == RatingOf(r.value.tokenCount, r.value.wordCount)
  {
    match CountTokens(encodingFor, prompt, DefaultModel)
    case Failure(e) => Failure(CountFailed(e))
    case Success(tokenCount) =>
      var wordCount := WordCount(prompt);
      var charCount := |prompt|;
      if tokenCount == 0 || wordCount == 0 then Failure(ZeroDivision)
      else
        Success(Efficiency(charCount, wordCount, tokenCount,
                           charCount as real / tokenCount as real, tokenCount as real / wordCount as real,
                           RatingOf(tokenCount, wordCount)))
  }
}
