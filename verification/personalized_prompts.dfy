/** The example prompts shown to a new user: eight questions written by the
    LLM once per process and cached, with a fixed list when that fails. */
module PersonalizedPrompts {
  import opened Wrappers
  import opened Text
  import opened Llm
  import opened Json

  /** How many prompts are kept. */
  const PromptCount: nat := 8

  /** The cached value: a list of decoded JSON items, or a string when the
      reply decoded to one (slicing a string keeps a string). */
  datatype Prompts = Items(items: seq<JsonValue>) | Chars(text: string)

  const GenerationPrompt: string :=
    "Generate 8 diverse example questions for a Nigerian tax and financial chatbot.\n\nRespond with ONLY a JSON array of 8 question strings:\n[\"question 1?\", \"question 2?\", ...]\n\nJSON RESPONSE:"

  /** The questions used when generation fails. */
  const FallbackQuestions: seq<string> := [
    "What is VAT in Nigeria?",
    "Calculate PAYE on ₦200,000 monthly salary",
    "Best investment options in Nigeria?",
    "How does pension contribution reduce my tax?",
    "Who is tax exempt under the 2026 policy?",
    "What deductions can reduce my PAYE?",
    "How to save money while paying taxes?",
    "Explain the new tax reform and its impact on salaries"]

  function FallbackPrompts(): (r: Prompts)
    ensures r.Items? && |r.items| == PromptCount
    ensures forall i :: 0 <= i < |r.items| ==> r.items[i] == JStr(FallbackQuestions[i])
  {
    Items(seq(|FallbackQuestions|, i requires 0 <= i < |FallbackQuestions| => JStr(FallbackQuestions[i])))
  }

  /** What a decoded reply becomes: its first eight items for a list, its
      first eight characters for a string; any other value makes the slice
      (or the length taken before it) raise. */
  function FromDecoded(v: JsonValue): (r: Option<Prompts>)
    ensures r.Some? <==> v.JArr? || v.JStr?
    ensures v.JArr? ==> r == Some(Items(Prefix(v.items, PromptCount)))
    ensures v.JStr? ==> r == Some(Chars(Prefix(v.s, PromptCount)))
  {
    match v
    case JArr(items) => Some(Items(Prefix(items, PromptCount)))
    case JStr(s) => Some(Chars(Prefix(s, PromptCount)))
    case _ => None
  }

  /** The prompts generated from scratch: the reply is stripped, cut from its
      first "[" to its last "]", decoded and sliced; any failure on the way
      gives the fallback list. */
  function Generate(env: Env, llm: Call, parse: Parser): (r: Prompts)
    ensures r.Items? ==> |r.items| <= PromptCount
    ensures r.Chars? ==> |r.text| <= PromptCount
    ensures AskContent(Modular, env, llm, GenerationPrompt).None? ==> r == FallbackPrompts()
  {
    match AskContent(Modular, env, llm, GenerationPrompt)
    case None => FallbackPrompts()
    case Some((text, _)) =>
      match parse(ExtractArray(Strip(text)))
      case None => FallbackPrompts()
      case Some(v) =>
        match FromDecoded(v)
        case None => FallbackPrompts()
        case Some(p) => p
  }

  /** `get_personalized_prompts()`: the cached value when there is one,
      otherwise a generated one, which becomes the cache. Returns the
      prompts and the new cache. */
  function GetPersonalizedPrompts(cache: Option<Prompts>, env: Env, llm: Call, parse: Parser): (r: (Prompts, Option<Prompts>))
    ensures r.1 == Some(r.0)
    ensures cache.Some? ==> r.0 == cache.value
    ensures cache.None? ==> r.0 == Generate(env, llm, parse)
  {
    match cache
    case Some(p) => (p, cache)
    case None =>
      var p := Generate(env, llm, parse);
      (p, Some(p))
  }

  /** Once any call has returned, every later call returns the same prompts,
      whatever the backends do then. */
  lemma RepeatedCallsAgree(cache: Option<Prompts>, env: Env, llm: Call, parse: Parser,
                           env2: Env, llm2: Call, parse2: Parser)
    ensures var first := GetPersonalizedPrompts(cache, env, llm, parse);
      var second := GetPersonalizedPrompts(first.1, env2, llm2, parse2);
      second == first
  {
  }

  /** A reply whose decoded list is longer than eight keeps its first eight
      items, in order. */
  lemma LongListIsCut(env: Env, llm: Call, parse: Parser, xs: seq<JsonValue>)
    requires var a := AskContent(Modular, env, llm, GenerationPrompt);
      a.Some? && parse(ExtractArray(Strip(a.value.0))) == Some(JArr(xs))
    requires |xs| >= PromptCount
    ensures var r := Generate(env, llm, parse);
      r.Items? && |r.items| == PromptCount && forall i :: 0 <= i < PromptCount ==> r.items[i] == xs[i]
  {
  }

  /** A reply that decodes to an object, a number, a boolean or null is
      replaced by the fallback list. */
  lemma OtherValueFallsBack(env: Env, llm: Call, parse: Parser)
    requires var a := AskContent(Modular, env, llm, GenerationPrompt);
      a.Some? && parse(ExtractArray(Strip(a.value.0))).Some?
      && !parse(ExtractArray(Strip(a.value.0))).value.JArr?
      && !parse(ExtractArray(Strip(a.value.0))).value.JStr?
    ensures Generate(env, llm, parse) == FallbackPrompts()
  {
  }
}
