/** The worker nodes: the tax and PAYE agents write their own answer and
    merge sources, the combined agent writes the final answer and the turn,
    and the financial agent answers from web-search text. */
module SubAgents {
  import opened Wrappers
  import opened Text
  import opened Llm
  import opened ChatHistory
  import opened Rag
  import opened AgentState
  import Formatter

  /** The source-merging rule: an empty list is replaced by the incoming
      sources, a non-empty one is extended in order; a result without
      sources contributes nothing. Both branches amount to appending. */
  function MergeSources(current: seq<Source>, incoming: Option<seq<Source>>): (r: seq<Source>)
    ensures r == current + incoming.GetOr([])
    ensures current <= r
  {
    if current == [] then incoming.GetOr([]) else current + incoming.GetOr([])
  }

  /** The tax agent's knowledge query. */
  function TaxRequest(v: Variant, s: AgentState, w: World): RagRequest {
    AgentRequest(v, w.env, s.query, "tax", 3, FormatHistory(s.messages, AgentWindow(v)))
  }

  /** The PAYE agent's knowledge query. */
  function PayeRequest(v: Variant, s: AgentState, w: World): RagRequest {
    AgentRequest(v, w.env, s.query, "paye", 3, FormatHistory(s.messages, AgentWindow(v)))
  }

  /** The combined agent's knowledge query: both collections, five hits,
      and the default history " ", which renders no history section. */
  function CombinedRequest(v: Variant, s: AgentState, w: World): (req: RagRequest)
    ensures Formatter.HistorySection(req.chatHistory) == ""
  {
    assert IsBlank(" ") by { assert AllSpace(" "); }
    AgentRequest(v, w.env, s.query, "both", 5, " ")
  }

  /** `tax_policy_agent`: writes the tax answer and the model, merges the
      sources, and leaves every other field as it was. */
  function TaxPolicyAgent(v: Variant, s: AgentState, w: World): (r: AgentState)
    ensures r.(taxAnswer := s.taxAnswer, modelUsed := s.modelUsed, sources := s.sources) == s
    ensures var res := QueryRag(v, TaxRequest(v, s, w), w.store, w.env, w.llm);
      && r.taxAnswer == res.answer && r.modelUsed == res.modelUsed
      && r.sources == s.sources + res.sources.GetOr([])
  {
    var res := QueryRag(v, TaxRequest(v, s, w), w.store, w.env, w.llm);
    s.(taxAnswer := res.answer, modelUsed := res.modelUsed, sources := MergeSources(s.sources, res.sources))
  }

  /** `paye_calculation_agent`: the same shape, writing the PAYE answer. */
  function PayeAgent(v: Variant, s: AgentState, w: World): (r: AgentState)
    ensures r.(payeAnswer := s.payeAnswer, modelUsed := s.modelUsed, sources := s.sources) == s
    ensures var res := QueryRag(v, PayeRequest(v, s, w), w.store, w.env, w.llm);
      && r.payeAnswer == res.answer && r.modelUsed == res.modelUsed
      && r.sources == s.sources + res.sources.GetOr([])
  {
    var res := QueryRag(v, PayeRequest(v, s, w), w.store, w.env, w.llm);
    s.(payeAnswer := res.answer, modelUsed := res.modelUsed, sources := MergeSources(s.sources, res.sources))
  }

  /** `combined_agent`: the answer becomes final, the sources are replaced
      (not merged), and the turn becomes the node's messages. */
  function CombinedAgent(v: Variant, s: AgentState, w: World): (r: AgentState)
    ensures r.(finalAnswer := s.finalAnswer, sources := s.sources, modelUsed := s.modelUsed,
               messages := s.messages) == s
    ensures var res := QueryRag(v, CombinedRequest(v, s, w), w.store, w.env, w.llm);
      && r.finalAnswer == res.answer && r.modelUsed == res.modelUsed
      && r.sources == res.sources.GetOr([])
      && r.messages == Turn(s.query, r.finalAnswer)
  {
    var res := QueryRag(v, CombinedRequest(v, s, w), w.store, w.env, w.llm);
    s.(finalAnswer := res.answer, sources := res.sources.GetOr([]), modelUsed := res.modelUsed,
       messages := Turn(s.query, res.answer))
  }

  /** The knowledge agents never touch the answer fields of the others:
      the tax agent keeps the PAYE answer, the PAYE agent the tax answer,
      and neither writes the final answer or the route. */
  lemma AgentsKeepOtherAnswers(v: Variant, s: AgentState, w: World)
    ensures var t := TaxPolicyAgent(v, s, w);
      t.payeAnswer == s.payeAnswer && t.finalAnswer == s.finalAnswer && t.route == s.route && t.messages == s.messages
    ensures var p := PayeAgent(v, s, w);
      p.taxAnswer == s.taxAnswer && p.finalAnswer == s.finalAnswer && p.route == s.route && p.messages == s.messages
  {
  }

  /** Running the tax agent and then the PAYE agent collects the tax
      sources first, then the PAYE ones, after the sources already there. */
  lemma SourcesAccumulateInOrder(v: Variant, s: AgentState, w: World)
    ensures var t := TaxPolicyAgent(v, s, w);
      var p := PayeAgent(v, t, w);
      p.sources == s.sources
        + QueryRag(v, TaxRequest(v, s, w), w.store, w.env, w.llm).sources.GetOr([])
        + QueryRag(v, PayeRequest(v, t, w), w.store, w.env, w.llm).sources.GetOr([])
  {
  }

  // ---------------------------------------------------------------------
  // Financial advice (modular agent only)

  const NoWebAnswer: string :=
    "I couldn't find recent information from Nigerian financial websites for your question. Please try rephrasing your question or ask about specific financial topics like savings, investments, budgeting, or financial planning."

  const AdvisorIntro: string :=
    "You are a helpful Nigerian Financial Advisor. Use the following information from trusted Nigerian financial websites to provide accurate, practical financial advice."
  const AdvisorInstructions: string :=
    "INSTRUCTIONS:\n1. Provide practical, actionable financial advice based on the Nigerian context\n10. Keep the response focused and concise\n\nFINANCIAL ADVICE:"

  /** The advice prompt: the history section, the web text and the query. */
  function FinancialPrompt(s: AgentState, webResults: string): (p: string)
    ensures Contains(p, webResults) && Contains(p, s.query)
    ensures Contains(p, Formatter.HistorySection(FormatChatHistory(s.messages)))
  {
    var history := Formatter.HistorySection(FormatChatHistory(s.messages));
    PiecesInConcat9(AdvisorIntro, "\n\n", history, "\n\nINFORMATION FROM FINANCIAL SOURCES:\n",
      webResults, "\n\nUSER QUESTION:\n", s.query, "\n\n", AdvisorInstructions);
    Concat([AdvisorIntro, "\n\n", history, "\n\nINFORMATION FROM FINANCIAL SOURCES:\n",
      webResults, "\n\nUSER QUESTION:\n", s.query, "\n\n", AdvisorInstructions])
  }

  /** The answer when the web text was found but the LLM step raised: the
      raw web text between two fixed sentences. */
  function WebFallback(webResults: string): (r: string)
    ensures Contains(r, webResults)
  {
    var pieces := ["I found some information from financial sources:\n\n", webResults,
      "\n\nHowever, I encountered an issue processing this information. Please review the sources above."];
    PieceInConcat(pieces, 1);
    Concat(pieces)
  }

  /** What `financial_advice_agent` computes for `financial_answer`, and
      the model it records when the LLM answered. */
  function FinancialAnswer(s: AgentState, w: World): (r: (string, Option<string>))
    ensures w.webResults == "" ==> r == (NoWebAnswer, None)
    ensures w.webResults != "" ==>
      var a := AskContent(Modular, w.env, w.llm, FinancialPrompt(s, w.webResults));
      && (a.Some? ==> r == (a.value.0, Some(a.value.1)))
      && (a.None? ==> r == (WebFallback(w.webResults), None))
  {
    if w.webResults == "" then (NoWebAnswer, None)
    else
      match AskContent(Modular, w.env, w.llm, FinancialPrompt(s, w.webResults))
      case Some((text, model)) => (text, Some(model))
      case None => (WebFallback(w.webResults), None)
  }

  /** `financial_advice_agent`. The state record has no `financial_answer`
      field, so that value is returned beside the state; the final answer
      always equals it, the turn becomes the node's messages, and the model
      changes only when the LLM answered. */
  function FinancialAdviceAgent(s: AgentState, w: World): (r: (AgentState, string))
    ensures r.0.finalAnswer == r.1
    ensures r.0.messages == Turn(s.query, r.1)
    ensures r.0.(finalAnswer := s.finalAnswer, messages := s.messages, modelUsed := s.modelUsed) == s
    ensures r.1 == FinancialAnswer(s, w).0
    ensures r.0.modelUsed == if FinancialAnswer(s, w).1.Some? then FinancialAnswer(s, w).1 else s.modelUsed
  {
    var (answer, model) := FinancialAnswer(s, w);
    var s1 := if model.Some? then s.(modelUsed := model) else s;
    (s1.(finalAnswer := answer, messages := Turn(s.query, answer)), answer)
  }

  /** An LLM failure still hands the user the web text that was found. */
  lemma FailedAdviceShowsSources(s: AgentState, w: World)
    requires w.webResults != ""
    requires AskContent(Modular, w.env, w.llm, FinancialPrompt(s, w.webResults)).None?
    ensures Contains(FinancialAdviceAgent(s, w).0.finalAnswer, w.webResults)
  {
  }
}
