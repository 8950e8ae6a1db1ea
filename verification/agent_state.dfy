/** The record that flows through the agent graph, and the collaborators
    every node consults: the provider environment, the raw LLM call, the
    vector store and the financial web-search text. */
module AgentState {
  import opened Wrappers
  import opened Llm
  import opened Retrieval
  import opened ChatHistory
  import opened Rag

  /** One graph state. `userId` is `None` in the monolithic agent, whose
      state has no such field; `modelUsed` is `None` after a degraded
      knowledge query. */
  datatype AgentState = AgentState(
    userId: Option<string>,
    query: string,
    messages: seq<Message>,
    route: string,
    taxAnswer: string,
    payeAnswer: string,
    finalAnswer: string,
    sources: seq<Source>,
    modelUsed: Option<string>)

  /** What the nodes may consult. `webResults` is the text the financial
      agent's search returns. */
  datatype World = World(env: Env, llm: Call, store: Store, webResults: string)

  /** The state `main_agent` starts every request from: every scratch field
      reset, only the remembered messages kept. */
  function InitialState(v: Variant, userId: string, query: string, messages: seq<Message>): (s: AgentState)
    ensures s.route == "" && s.taxAnswer == "" && s.payeAnswer == "" && s.finalAnswer == ""
    ensures s.sources == [] && s.modelUsed == Some("")
    ensures s.query == query && s.messages == messages
    ensures s.userId == if v == Modular then Some(userId) else None
  {
    AgentState(if v == Modular then Some(userId) else None, query, messages, "", "", "", "", [], Some(""))
  }

  /** The history window the knowledge agents render. */
  function AgentWindow(v: Variant): nat {
    if v == Modular then ModularWindow else LegacyWindow
  }

  /** A knowledge query as the agent nodes issue it: sources requested, no
      forced fallback, and the default generation settings (the modular
      defaults come from the configuration; the monolithic ones are
      ignored by its manager). */
  function AgentRequest(v: Variant, env: Env, query: string, collectionType: string, topK: int,
                        history: string): (req: RagRequest)
    ensures req.query == query && req.collectionType == collectionType && req.topK == topK
    ensures req.returnSources && !req.forceFallback && req.chatHistory == history
    ensures req.taxCollection == DefaultTaxCollection && req.payeCollection == DefaultPayeCollection
  {
    var (t, n) := if v == Modular then (env.settings.temperature, env.settings.maxTokens) else (0.7, 1024);
    RagRequest(query, collectionType, topK, false, true, t, n, DefaultTaxCollection, DefaultPayeCollection, history)
  }
}
