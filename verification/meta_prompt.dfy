/** The meta-prompting helpers: an LLM analysis of whether a query asks
    for a PAYE calculation (with a regular-expression fallback that looks
    for a salary), and three LLM writers, each with its own fallback. */
module MetaPrompt {
  import opened Wrappers
  import opened Text
  import opened Llm
  import opened Json

  // ---------------------------------------------------------------------
  // Query analysis

  const NoHistoryText: string := "No previous conversation"
  const AnalysisIntro: string := "Analyze this tax-related query to determine the best response approach."
  const AnalysisFormat: string :=
    "RESPOND IN JSON FORMAT:\n{\n    \"is_calculation_request\": true/false,\n    \"approach\": \"collect/conditional/direct\",\n    \"reasoning\": \"brief explanation\"\n}\n\nReturn ONLY valid JSON:"

  /** The analysis prompt; an empty history is shown as "No previous
      conversation". */
  function AnalysisPrompt(query: string, chatHistory: string): (p: string)
    ensures Contains(p, query)
    ensures Contains(p, if chatHistory != "" then chatHistory else NoHistoryText)
  {
    var history := if chatHistory != "" then chatHistory else NoHistoryText;
    var pieces := [AnalysisIntro, "\n\nCONVERSATION HISTORY:\n", history, "\n\nCURRENT USER QUERY:\n", query,
      "\n\n", AnalysisFormat];
    PieceInConcat(pieces, 2);
    PieceInConcat(pieces, 4);
    Concat(pieces)
  }

  /** `\d+[k\s]` matches at `i`: a digit followed by "k" or whitespace. */
  predicate DigitThenUnit(s: string, i: int) {
    0 <= i && i + 1 < |s| && IsDigit(s[i]) && (s[i + 1] == 'k' || IsSpace(s[i + 1]))
  }

  /** `₦\s*\d+` matches at `i`, its first digit at `k`. */
  predicate NairaAmount(s: string, i: int, k: int) {
    0 <= i < k < |s| && s[i] == '₦' && AllSpace(s[i + 1..k]) && IsDigit(s[k])
  }

  /** `\d+,\d+` matches at `i`. */
  predicate GroupedDigits(s: string, i: int) {
    0 <= i && i + 2 < |s| && IsDigit(s[i]) && s[i + 1] == ',' && IsDigit(s[i + 2])
  }

  /** The fallback's salary test: one of the three alternatives matches
      somewhere in the lower-cased query. */
  predicate MentionsSalary(query: string) {
    var s := Lower(query);
    || (exists i | 0 <= i < |s| :: DigitThenUnit(s, i))
    || (exists i, k | 0 <= i < k < |s| :: NairaAmount(s, i, k))
    || (exists i | 0 <= i < |s| :: GroupedDigits(s, i))
  }

  /** A thousands-separated amount anywhere in the query counts as a salary. */
  lemma GroupedAmountIsSalary(pre: string, a: char, b: char, post: string)
    requires IsDigit(a) && IsDigit(b)
    ensures MentionsSalary(pre + [a, ',', b] + post)
  {
    var q := pre + [a, ',', b] + post;
    var s := Lower(q);
    assert q[|pre|] == a && q[|pre| + 1] == ',' && q[|pre| + 2] == b;
    assert GroupedDigits(s, |pre|);
  }

  /** Every alternative needs a digit, so a query without digits never
      counts as mentioning a salary. */
  lemma NoDigitNoSalary(query: string)
    requires forall i :: 0 <= i < |query| ==> !IsDigit(query[i])
    ensures !MentionsSalary(query)
  {
    var s := Lower(query);
    assert forall i :: 0 <= i < |s| ==> !IsDigit(s[i]);
  }

  /** The analysis returned when the LLM step raised, from the salary test. */
  function Fallback(hasSalary: bool): (r: JsonValue)
    ensures HasKey(r, "approach")
  {
    var missing := if hasSalary then [JStr("pension"), JStr("nhf"), JStr("rent")] else [];
    var members := [
      ("is_calculation_request", JBool(hasSalary)),
      ("needs_clarification", JBool(hasSalary)),
      ("missing_info", JArr(missing)),
      ("user_mood", JStr("neutral")),
      ("approach", JStr(if hasSalary then "collect" else "direct")),
      ("reasoning", JStr("Fallback due to parsing error"))];
    assert members[4].0 == "approach";
    JObj(members)
  }

  /** What the fallback says: a salary makes it a calculation request that
      needs clarification, asks for pension, NHF and rent, and collects;
      otherwise it answers directly. */
  lemma FallbackMeaning(hasSalary: bool)
    ensures var m := Fallback(hasSalary).members;
      && m[0] == ("is_calculation_request", JBool(hasSalary))
      && m[1] == ("needs_clarification", JBool(hasSalary))
      && (m[2].1.items != [] <==> hasSalary)
      && m[4] == ("approach", JStr(if hasSalary then "collect" else "direct"))
  {
  }

  /** `analyze_query_for_tax_calculation(query, chat_history)`: the reply is
      stripped, cut to its first object-looking span, and decoded; the
      decoded value is returned when reading its "approach" key succeeds,
      which needs an object. Any failure gives the fallback. */
  function AnalyzeQuery(query: string, chatHistory: string, env: Env, llm: Call, parse: Parser): (r: JsonValue)
    ensures HasKey(r, "approach")
    ensures AskContent(Modular, env, llm, AnalysisPrompt(query, chatHistory)).None? ==>
      r == Fallback(MentionsSalary(query))
    ensures var a := AskContent(Modular, env, llm, AnalysisPrompt(query, chatHistory));
      a.Some? ==>
        var v := parse(ExtractObject(Strip(a.value.0)));
        r == if v.Some? && HasKey(v.value, "approach") then v.value else Fallback(MentionsSalary(query))
  {
    match AskContent(Modular, env, llm, AnalysisPrompt(query, chatHistory))
    case None => Fallback(MentionsSalary(query))
    case Some((text, _)) =>
      match parse(ExtractObject(Strip(text)))
      case Some(v) => if HasKey(v, "approach") then v else Fallback(MentionsSalary(query))
      case None => Fallback(MentionsSalary(query))
  }

  /** A decoded value without an "approach" key (an array, a number, an
      object lacking the key) is never returned. */
  lemma AnalysisNeedsApproach(query: string, chatHistory: string, env: Env, llm: Call, parse: Parser)
    requires var a := AskContent(Modular, env, llm, AnalysisPrompt(query, chatHistory));
      a.Some? && parse(ExtractObject(Strip(a.value.0))).Some?
      && !HasKey(parse(ExtractObject(Strip(a.value.0))).value, "approach")
    ensures AnalyzeQuery(query, chatHistory, env, llm, parse) == Fallback(MentionsSalary(query))
  {
  }

  // ---------------------------------------------------------------------
  // Writers

  const ClarificationIntro: string := "Generate a friendly, persuasive request for missing tax information."
  const ClarificationTask: string :=
    "YOUR TASK:\n1. Friendly intro explaining WHY you need this info\n\nCLARIFICATION REQUEST:"

  /** The clarification prompt: the query, the mood and the missing fields
      joined by ", ". */
  function ClarificationPrompt(missingInfo: seq<string>, userMood: string, userQuery: string): (p: string)
    ensures Contains(p, userQuery) && Contains(p, userMood) && Contains(p, Join(missingInfo, ", "))
  {
    PiecesInConcat9(ClarificationIntro, "\n\nUSER'S QUERY: ", userQuery, "\nUSER MOOD: ", userMood,
      "\nMISSING INFORMATION: ", Join(missingInfo, ", "), "\n\n", ClarificationTask);
    Concat([ClarificationIntro, "\n\nUSER'S QUERY: ", userQuery, "\nUSER MOOD: ", userMood,
      "\nMISSING INFORMATION: ", Join(missingInfo, ", "), "\n\n", ClarificationTask])
  }

  /** `generate_clarification_request`: nothing for an impatient user (and
      no LLM call), the LLM's text otherwise, nothing when that raised. */
  function GenerateClarificationRequest(missingInfo: seq<string>, userMood: string, userQuery: string,
                                        env: Env, llm: Call): (r: Option<string>)
    ensures userMood == "impatient" ==> r == None
    ensures userMood != "impatient" ==>
      var a := AskContent(Modular, env, llm, ClarificationPrompt(missingInfo, userMood, userQuery));
      && (r.Some? <==> a.Some?)
      && (r.Some? ==> r.value == a.value.0)
  {
    if userMood == "impatient" then None
    else
      match AskContent(Modular, env, llm, ClarificationPrompt(missingInfo, userMood, userQuery))
      case None => None
      case Some((text, _)) => Some(text)
  }

  const ConditionalIntro: string :=
    "User wants tax calculation but won't provide complete info. Give helpful conditional answer."
  const ConditionalTask: string :=
    "TASK:\n1. Provide general PAYE calculation examples\n\nBe friendly and persuasive!\n\nRESPONSE:"

  function ConditionalPrompt(query: string, missingInfo: seq<string>, partialAnswer: string): (p: string)
    ensures Contains(p, query) && Contains(p, Join(missingInfo, ", ")) && Contains(p, partialAnswer)
  {
    PiecesInConcat9(ConditionalIntro, "\n\nUSER QUERY: ", query, "\nMISSING INFO: ", Join(missingInfo, ", "),
      "\nCONTEXT: ", partialAnswer, "\n\n", ConditionalTask);
    Concat([ConditionalIntro, "\n\nUSER QUERY: ", query, "\nMISSING INFO: ", Join(missingInfo, ", "),
      "\nCONTEXT: ", partialAnswer, "\n\n", ConditionalTask])
  }

  /** `generate_conditional_answer`: the LLM's text, or the partial answer
      when that raised. */
  function GenerateConditionalAnswer(query: string, missingInfo: seq<string>, partialAnswer: string,
                                     env: Env, llm: Call): (r: string)
    ensures var a := AskContent(Modular, env, llm, ConditionalPrompt(query, missingInfo, partialAnswer));
      r == if a.Some? then a.value.0 else partialAnswer
  {
    match AskContent(Modular, env, llm, ConditionalPrompt(query, missingInfo, partialAnswer))
    case None => partialAnswer
    case Some((text, _)) => text
  }

  const FirstMessageText: string := "First message"
  const EngagementIntro: string := "You're a friendly Nigerian tax guide explaining taxes in simple terms."
  const EngagementTask: string :=
    "APPROACH:\n1. Break down complex tax concepts into simple steps\n\nRESPONSE:"

  /** The engagement prompt; an empty history is shown as "First message". */
  function EngagementPrompt(query: string, context: string, chatHistory: string): (p: string)
    ensures Contains(p, query) && Contains(p, context)
    ensures Contains(p, if chatHistory != "" then chatHistory else FirstMessageText)
  {
    var history := if chatHistory != "" then chatHistory else FirstMessageText;
    PiecesInConcat9(EngagementIntro, "\n\nCONVERSATION: ", history, "\nUSER QUESTION: ", query,
      "\nCONTEXT: ", context, "\n\n", EngagementTask);
    Concat([EngagementIntro, "\n\nCONVERSATION: ", history, "\nUSER QUESTION: ", query,
      "\nCONTEXT: ", context, "\n\n", EngagementTask])
  }

  /** `create_engagement_response`: the LLM's text, or the context when
      that raised. */
  function CreateEngagementResponse(query: string, context: string, chatHistory: string, env: Env,
                                    llm: Call): (r: string)
    ensures var a := AskContent(Modular, env, llm, EngagementPrompt(query, context, chatHistory));
      r == if a.Some? then a.value.0 else context
  {
    match AskContent(Modular, env, llm, EngagementPrompt(query, context, chatHistory))
    case None => context
    case Some((text, _)) => text
  }

  /** Without a backend every helper takes its fallback: the salary-based
      analysis, no clarification, the partial answer, the context. */
  lemma NoBackendFallbacks(query: string, chatHistory: string, context: string, partialAnswer: string,
                           missingInfo: seq<string>, userMood: string, env: Env, llm: Call, parse: Parser)
    requires !env.up(Primary) && !env.up(Secondary)
    ensures AnalyzeQuery(query, chatHistory, env, llm, parse) == Fallback(MentionsSalary(query))
    ensures GenerateClarificationRequest(missingInfo, userMood, query, env, llm) == None
    ensures GenerateConditionalAnswer(query, missingInfo, partialAnswer, env, llm) == partialAnswer
    ensures CreateEngagementResponse(query, context, chatHistory, env, llm) == context
  {
  }
}
