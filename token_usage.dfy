/**
 * `TokenUsageCallback`: the counters of the planning node's last model call
 * and its estimated cost. Rates are integers in cents per million tokens, so
 * a cost is an exact integer number of millionths of a cent.
 */
module TokenUsage {
  import opened Wrappers
  import opened Text
  import opened Dicts
  import opened Schema

  /** Cents per million prompt tokens and per million completion tokens. */
  datatype Rates = Rates(input: nat, output: nat)

  const Gpt4oRates := Rates(500, 1500)
  const Gpt4oMiniRates := Rates(15, 60)
  const Gpt4TurboRates := Rates(1000, 3000)
  const Gpt35TurboRates := Rates(50, 150)

  /** The pricing tier of a model name: the first tier whose key the name contains. */
  function PricingTier(modelName: string): Option<Rates> {
    if Contains(modelName, "gpt-4o") then Some(Gpt4oRates)
    else if Contains(modelName, "gpt-4o-mini") then Some(Gpt4oMiniRates)
    else if Contains(modelName, "gpt-4-turbo") then Some(Gpt4TurboRates)
    else if Contains(modelName, "gpt-3.5-turbo") then Some(Gpt35TurboRates)
    else None
  }

  lemma MiniNameContainsGpt4o(modelName: string)
    requires Contains(modelName, "gpt-4o-mini")
    ensures Contains(modelName, "gpt-4o")
  {
    ContainsPrefix("gpt-4o-mini", "gpt-4o");
    ContainsTransitive(modelName, "gpt-4o-mini", "gpt-4o");
  }

  /** The gpt-4o-mini tier is never chosen: a mini model is priced as gpt-4o, because its name contains "gpt-4o". */
  lemma MiniTierUnreachable(modelName: string)
    ensures PricingTier(modelName) != Some(Gpt4oMiniRates)
    ensures Contains(modelName, "gpt-4o-mini") ==> PricingTier(modelName) == Some(Gpt4oRates)
  {
    if Contains(modelName, "gpt-4o-mini") {
      MiniNameContainsGpt4o(modelName);
    }
  }

  /** A name has a tier exactly when it contains "gpt-4o", "gpt-4-turbo" or "gpt-3.5-turbo". */
  lemma PricingTierDefined(modelName: string)
    ensures PricingTier(modelName).None? <==>
      !Contains(modelName, "gpt-4o") && !Contains(modelName, "gpt-4-turbo") && !Contains(modelName, "gpt-3.5-turbo")
  {
    if Contains(modelName, "gpt-4o-mini") {
      MiniNameContainsGpt4o(modelName);
    }
  }

  /** The cost of a call in millionths of a cent. */
  function Cost(promptTokens: int, completionTokens: int, rates: Rates): int {
    promptTokens * rates.input + completionTokens * rates.output
  }

  /** The callback's fields, as a value. */
  datatype Counters = Counters(totalTokens: int, promptTokens: int, completionTokens: int, cost: int)

  /**
   * What `on_llm_end` leaves in the counters `c` after a reply with the given
   * usage report: a non-empty report overwrites the three counters (a missing
   * key reads as 0) and the cost when the model has a tier; anything else
   * changes nothing.
   */
  function AfterReport(c: Counters, usage: Option<Dict<int>>, modelName: string): (r: Counters)
    ensures usage.None? || usage.value == [] ==> r == c
    ensures usage.Some? && usage.value != [] ==>
      && r.totalTokens == GetOr(usage.value, "total_tokens", 0)
      && r.promptTokens == GetOr(usage.value, "prompt_tokens", 0)
      && r.completionTokens == GetOr(usage.value, "completion_tokens", 0)
    ensures PricingTier(modelName).None? ==> r.cost == c.cost
  {
    if usage.None? || usage.value == [] then c
    else
      var d := usage.value;
      var prompt := GetOr(d, "prompt_tokens", 0);
      var completion := GetOr(d, "completion_tokens", 0);
      var cost := match PricingTier(modelName)
        case Some(rates) => Cost(prompt, completion, rates)
        case None => c.cost;
      Counters(GetOr(d, "total_tokens", 0), prompt, completion, cost)
  }

  /** A report overwrites, it does not accumulate: the result does not depend on what was there. */
  lemma ReportOverwrites(c1: Counters, c2: Counters, d: Dict<int>, modelName: string)
    requires d != [] && PricingTier(modelName).Some?
    ensures AfterReport(c1, Some(d), modelName) == AfterReport(c2, Some(d), modelName)
  {
  }

  /** A gpt-4o-mini model is charged the gpt-4o rates of 5 and 15 dollars per million tokens. */
  lemma MiniChargedAsGpt4o(c: Counters, d: Dict<int>, modelName: string)
    requires d != [] && Contains(modelName, "gpt-4o-mini")
    ensures var r := AfterReport(c, Some(d), modelName);
      r.cost == r.promptTokens * 500 + r.completionTokens * 1500
  {
    MiniNameContainsGpt4o(modelName);
  }

  /** `TokenUsageCallback`. */
  class TokenUsageCallback {
    var totalTokens: int
    var promptTokens: int
    var completionTokens: int
    var cost: int

    function Snapshot(): Counters
      reads this
    {
      Counters(totalTokens, promptTokens, completionTokens, cost)
    }

    constructor ()
      ensures Snapshot() == Counters(0, 0, 0, 0)
    {
      totalTokens, promptTokens, completionTokens, cost := 0, 0, 0, 0;
    }

    /** `on_llm_end(response)`; `usage` is the reply's `token_usage` dict, if it reports one. */
    method OnLlmEnd(usage: Option<Dict<int>>, modelName: string)
      modifies this
      ensures Snapshot() == AfterReport(old(Snapshot()), usage, modelName)
    {
      if usage.Some? && usage.value != [] {
        var d := usage.value;
        totalTokens := GetOr(d, "total_tokens", 0);
        promptTokens := GetOr(d, "prompt_tokens", 0);
        completionTokens := GetOr(d, "completion_tokens", 0);
        var tier := PricingTier(modelName);
        if tier.Some? {
          cost := Cost(promptTokens, completionTokens, tier.value);
        }
      }
    }
  }

  /** The `token_info` record the planning node builds from a fresh callback after one reply. */
  function ReportedUsage(usage: Option<Dict<int>>, modelName: string): (t: TokenInfo)
    ensures t.model == modelName
    ensures usage.None? || usage.value == [] ==> t == TokenInfo(0, 0, 0, 0, modelName)
    ensures PricingTier(modelName).None? ==> t.estimatedCost == 0
    ensures PricingTier(modelName).Some? ==>
      t.estimatedCost == Cost(t.promptTokens, t.completionTokens, PricingTier(modelName).value)
  {
    var c := AfterReport(Counters(0, 0, 0, 0), usage, modelName);
    TokenInfo(c.totalTokens, c.promptTokens, c.completionTokens, c.cost, modelName)
  }
}
