/** The responder node, which turns the agents' answers into the final
    answer, and the two edge functions of the graph. */
module Responder {
  import opened Wrappers
  import opened Text
  import opened Llm
  import opened ChatHistory
  import opened AgentState

  const SynthesisIntro: string :=
    "You are a helpful Nigerian Tax Assistant. You have received information from two specialized agents about a user's tax question."
  const SynthesisInstructions: string :=
    "INSTRUCTIONS:\nYour task is to synthesize these two pieces of information into ONE coherent, comprehensive answer that directly addresses the user's question.\n\nSYNTHESIZED ANSWER:"

  /** The synthesis prompt: the rendered history, the query and both answers. */
  function SynthesisPrompt(v: Variant, s: AgentState): (p: string)
    ensures Contains(p, s.query) && Contains(p, s.taxAnswer) && Contains(p, s.payeAnswer)
    ensures Contains(p, FormatHistory(s.messages, AgentWindow(v)))
  {
    var history := FormatHistory(s.messages, AgentWindow(v));
    PiecesInConcat11(SynthesisIntro, "\n\nPREVIOUS CONVERSATION:\n", history,
      "\n\nUSER'S ORIGINAL QUESTION:\n", s.query, "\n\nTAX POLICY INFORMATION:\n", s.taxAnswer,
      "\n\nPAYE CALCULATION INFORMATION:\n", s.payeAnswer, "\n\n", SynthesisInstructions);
    Concat([SynthesisIntro, "\n\nPREVIOUS CONVERSATION:\n", history,
      "\n\nUSER'S ORIGINAL QUESTION:\n", s.query, "\n\nTAX POLICY INFORMATION:\n", s.taxAnswer,
      "\n\nPAYE CALCULATION INFORMATION:\n", s.payeAnswer, "\n\n", SynthesisInstructions])
  }

  const FallbackHead: string := "Based on Nigerian tax regulations:\n\nTAX POLICY INFORMATION:\n"
  const FallbackMiddle: string := "\n\nPAYE CALCULATION DETAILS:\n"

  /** The simple combination used when synthesis raised: the tax answer
      right after the heading, the PAYE answer at the very end. */
  function SimpleCombination(tax: string, paye: string): (r: string)
    ensures FallbackHead + tax <= r
    ensures |paye| <= |r| && r[|r| - |paye|..] == paye
    ensures Contains(r, tax) && Contains(r, paye)
  {
    var r := FallbackHead + tax + FallbackMiddle + paye;
    assert r[..|FallbackHead| + |tax|] == FallbackHead + tax;
    assert r[|r| - |paye|..] == paye;
    InfixOfConcat(FallbackHead, tax, FallbackMiddle + paye);
    assert r == FallbackHead + tax + (FallbackMiddle + paye);
    InfixOfConcat(FallbackHead + tax + FallbackMiddle, paye, "");
    assert r == FallbackHead + tax + FallbackMiddle + paye + "";
    r
  }

  /** The final answer and the model after the responder's branches. */
  function Respond(v: Variant, s: AgentState, w: World): (r: (string, Option<string>))
    ensures s.taxAnswer != "" && s.payeAnswer != "" ==>
      var a := AskContent(v, w.env, w.llm, SynthesisPrompt(v, s));
      r == if a.Some? then (a.value.0, Some(a.value.1)) else (SimpleCombination(s.taxAnswer, s.payeAnswer), s.modelUsed)
    ensures s.taxAnswer != "" && s.payeAnswer == "" ==> r == (s.taxAnswer, s.modelUsed)
    ensures s.taxAnswer == "" && s.payeAnswer != "" ==> r == (s.payeAnswer, s.modelUsed)
    ensures s.taxAnswer == "" && s.payeAnswer == "" ==> r == (s.finalAnswer, s.modelUsed)
  {
    if s.taxAnswer != "" && s.payeAnswer != "" then
      match AskContent(v, w.env, w.llm, SynthesisPrompt(v, s))
      case Some((text, model)) => (text, Some(model))
      case None => (SimpleCombination(s.taxAnswer, s.payeAnswer), s.modelUsed)
    else if s.taxAnswer != "" then (s.taxAnswer, s.modelUsed)
    else if s.payeAnswer != "" then (s.payeAnswer, s.modelUsed)
    else (s.finalAnswer, s.modelUsed)
  }

  /** `response_generator`: writes the final answer, possibly the model,
      and the turn as the node's messages; nothing else changes. */
  function ResponseGenerator(v: Variant, s: AgentState, w: World): (r: AgentState)
    ensures r.(finalAnswer := s.finalAnswer, modelUsed := s.modelUsed, messages := s.messages) == s
    ensures (r.finalAnswer, r.modelUsed) == Respond(v, s, w)
    ensures r.messages == Turn(s.query, r.finalAnswer)
  {
    var (answer, model) := Respond(v, s, w);
    s.(finalAnswer := answer, modelUsed := model, messages := Turn(s.query, answer))
  }

  /** With exactly one answer present, the responder passes it through
      verbatim. */
  lemma SingleAnswerPassesThrough(v: Variant, s: AgentState, w: World)
    requires (s.taxAnswer == "") != (s.payeAnswer == "")
    ensures ResponseGenerator(v, s, w).finalAnswer == s.taxAnswer + s.payeAnswer
  {
  }

  /** Without any backend, two answers are combined without the LLM. */
  lemma NoBackendCombines(v: Variant, s: AgentState, w: World)
    requires s.taxAnswer != "" && s.payeAnswer != ""
    requires !w.env.up(Primary) && !w.env.up(Secondary)
    ensures var f := ResponseGenerator(v, s, w).finalAnswer;
      f == SimpleCombination(s.taxAnswer, s.payeAnswer) && Contains(f, s.taxAnswer) && Contains(f, s.payeAnswer)
  {
  }

  /** `decide_next_step`: the supervisor's conditional edge. Only "tax" and
      "paye" select their agents; every other route, "financial" included,
      selects the combined agent. */
  function DecideNextStep(route: string): (r: string)
    ensures r == "tax_agent" <==> route == "tax"
    ensures r == "paye_agent" <==> route == "paye"
    ensures r == "combined_agent" <==> route != "tax" && route != "paye"
  {
    if route == "tax" then "tax_agent"
    else if route == "paye" then "paye_agent"
    else "combined_agent"
  }

  /** The financial agent is never selected. */
  lemma FinancialNeverSelected(route: string)
    ensures DecideNextStep(route) != "financial_agent"
    ensures route == "financial" ==> DecideNextStep(route) == "combined_agent"
  {
  }

  /** `decide_after_agents`: "responder" exactly when both answers are
      present. No graph uses it. */
  function DecideAfterAgents(s: AgentState): (r: string)
    ensures r == "responder" <==> s.taxAnswer != "" && s.payeAnswer != ""
    ensures r != "responder" ==> r == "end"
  {
    if s.taxAnswer != "" && s.payeAnswer != "" then "responder" else "end"
  }
}
