/**
 * The token budget the official client is configured with, chosen from the
 * model name (service/src/chatgpt/index.ts, the init block).
 */
module TokenLimits {
  import opened Wrappers
  import opened Text

  /** `maxModelTokens` and `maxResponseTokens`; `None` leaves the client's own default. */
  datatype Limits = Limits(maxModelTokens: Option<nat>, maxResponseTokens: Option<nat>)

  const Unset := Limits(None, None)

  /**
   * The cascade over the lower-cased model name. Each regular expression of
   * the source is a list of literal alternatives, so it is a disjunction of
   * `Contains`.
   */
  function TokenLimitsFor(model: string): (r: Limits)
    ensures r.maxModelTokens.Some? <==> r.maxResponseTokens.Some?
    ensures r.maxModelTokens.Some? ==> 4 * r.maxResponseTokens.value <= r.maxModelTokens.value
    ensures Contains(Lower(model), "gpt-4") ==> r.maxModelTokens.Some?
  {
    var name := Lower(model);
    if Contains(name, "gpt-4") then
      if Contains(name, "32k") then Limits(Some(32768), Some(8192))
      else if Contains(name, "-4o-mini") then Limits(Some(128000), Some(16384))
      else if Contains(name, "-preview") || Contains(name, "-turbo") || Contains(name, "o") then
        Limits(Some(128000), Some(4096))
      else Limits(Some(8192), Some(2048))
    else if Contains(name, "gpt-3.5") then
      if Contains(name, "16k") || Contains(name, "1106") || Contains(name, "0125") then
        Limits(Some(16384), Some(4096))
      else Unset
    else Unset
  }

  /** Every name containing `-turbo` contains `o`, so that alternative never decides anything. */
  lemma TurboHasO(s: string)
    requires Contains(s, "-turbo")
    ensures Contains(s, "o")
  {
    assert OccursAt("-turbo", "o", 5);
    ContainsTransitive(s, "-turbo", "o");
  }

  /** Every name containing `-4o-mini` contains `o`. */
  lemma MiniHasO(s: string)
    requires Contains(s, "-4o-mini")
    ensures Contains(s, "o")
  {
    assert OccursAt("-4o-mini", "o", 2);
    ContainsTransitive(s, "-4o-mini", "o");
  }

  /**
   * The gpt-4 family: `32k` beats every other rule, then `-4o-mini`, then
   * `-preview` or any `o` (which covers `-turbo` and `4o`), then the plain
   * 8k model.
   */
  lemma Gpt4Limits(model: string)
    requires Contains(Lower(model), "gpt-4")
    ensures var name := Lower(model);
      TokenLimitsFor(model) ==
        if Contains(name, "32k") then Limits(Some(32768), Some(8192))
        else if Contains(name, "-4o-mini") then Limits(Some(128000), Some(16384))
        else if Contains(name, "-preview") || Contains(name, "o") then Limits(Some(128000), Some(4096))
        else Limits(Some(8192), Some(2048))
  {
    var name := Lower(model);
    if Contains(name, "-turbo") {
      TurboHasO(name);
    }
  }

  /**
   * Both limits stay unset exactly for names outside the gpt-4 family that
   * are not a gpt-3.5 name mentioning `16k`, `1106` or `0125`.
   */
  lemma UnsetLimits(model: string)
    ensures var name := Lower(model);
      TokenLimitsFor(model) == Unset <==>
        !Contains(name, "gpt-4") &&
        !(Contains(name, "gpt-3.5") && (Contains(name, "16k") || Contains(name, "1106") || Contains(name, "0125")))
  {
  }

  /** A gpt-3.5 name mentioning `16k`, `1106` or `0125` gets a 16384-token context and 4096 for the response. */
  lemma Gpt35Limits(model: string)
    requires var name := Lower(model);
      !Contains(name, "gpt-4") && Contains(name, "gpt-3.5") &&
      (Contains(name, "16k") || Contains(name, "1106") || Contains(name, "0125"))
    ensures TokenLimitsFor(model) == Limits(Some(16384), Some(4096))
  {
  }

  /** A 128000-token context is given only to gpt-4 names without `32k` that contain `-preview` or `o`. */
  lemma LargeContextOnlyForGpt4(model: string)
    requires TokenLimitsFor(model).maxModelTokens == Some(128000)
    ensures var name := Lower(model);
      Contains(name, "gpt-4") && !Contains(name, "32k") && (Contains(name, "-preview") || Contains(name, "o"))
  {
    var name := Lower(model);
    if Contains(name, "-4o-mini") {
      MiniHasO(name);
    } else if Contains(name, "-turbo") {
      TurboHasO(name);
    }
  }

  /** The choice ignores letter case. */
  lemma CaseInsensitive(model: string)
    ensures TokenLimitsFor(Lower(model)) == TokenLimitsFor(model)
  {
    LowerIdempotent(model);
  }

  /** What the cascade tests of the default model name `gpt-3.5-turbo`. */
  lemma DefaultModelFragments(name: string)
    requires name == "gpt-3.5-turbo"
    ensures Lower(name) == name && Contains(name, "gpt-3.5")
    ensures !Contains(name, "gpt-4") && !Contains(name, "16k") && !Contains(name, "1106") && !Contains(name, "0125")
  {
    assert OccursAt(name, "gpt-3.5", 0);
    NotContainsMissingChar(name, "gpt-4", 4);
    NotContainsMissingChar(name, "16k", 1);
    NotContainsMissingChar(name, "1106", 2);
    NotContainsMissingChar(name, "0125", 0);
  }

  /** The default model, `gpt-3.5-turbo`, is left with the client's own limits. */
  lemma DefaultModelUnset()
    ensures TokenLimitsFor("gpt-3.5-turbo") == Unset
  {
    DefaultModelFragments("gpt-3.5-turbo");
    UnsetLimits("gpt-3.5-turbo");
  }

  /** What the cascade tests of `gpt-4o-mini`. */
  lemma MiniModelFragments(name: string)
    requires name == "gpt-4o-mini"
    ensures Lower(name) == name && Contains(name, "gpt-4") && !Contains(name, "32k") && Contains(name, "-4o-mini")
  {
    assert OccursAt(name, "gpt-4", 0);
    NotContainsMissingChar(name, "32k", 0);
    assert OccursAt(name, "-4o-mini", 3);
  }

  /** `gpt-4o-mini` gets its own larger response budget, although it also contains `o`. */
  lemma MiniModelLimits()
    ensures TokenLimitsFor("gpt-4o-mini") == Limits(Some(128000), Some(16384))
  {
    MiniModelFragments("gpt-4o-mini");
    Gpt4Limits("gpt-4o-mini");
  }

  /** What the cascade tests of `openai/gpt-4`. */
  lemma PrefixedModelFragments(name: string)
    requires name == "openai/gpt-4"
    ensures Lower(name) == name && Contains(name, "gpt-4") && !Contains(name, "32k")
    ensures !Contains(name, "-4o-mini") && Contains(name, "o")
  {
    assert OccursAt(name, "gpt-4", 7);
    NotContainsMissingChar(name, "32k", 0);
    NotContainsMissingChar(name, "-4o-mini", 4);
    assert OccursAt(name, "o", 0);
  }

  /**
   * The bare `o` alternative also matches an `o` outside `4o`: a name such as
   * `openai/gpt-4` is given the 128000-token context of GPT-4 Turbo rather
   * than the 8192 of plain GPT-4.
   */
  lemma AnyOMatches()
    ensures TokenLimitsFor("openai/gpt-4") == Limits(Some(128000), Some(4096))
  {
    PrefixedModelFragments("openai/gpt-4");
    Gpt4Limits("openai/gpt-4");
  }
}
