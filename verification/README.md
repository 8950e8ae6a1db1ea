# Nigerian tax chatbot: a Dafny model of its agent core

This project models the deterministic control logic of a Nigerian tax and
financial-advice chatbot and proves properties of it. The chatbot answers
questions with a LangGraph agent:

- a supervisor node asks an LLM for a route;
- knowledge agents answer from the tax-policy and PAYE vector collections,
  through a retrieval-augmented generation (RAG) pipeline;
- a financial agent answers from web-search text;
- a responder node merges the answers into the final one.

An LLM manager keeps a cached client over two providers, with a forced
fallback and a one-shot retry. Meta-prompting helpers and example prompts
degrade gracefully when the LLM fails. Two HTTP endpoints serve chats and
read a thread's history back from the checkpointer.

Two generations of the code exist side by side, and `Llm.Variant` selects
between them wherever they differ:

- the modular one under `src/agent`, `src/services` and `src/tools`, where
  Groq is primary and Cohere the fallback;
- the monolithic one in `src/agentic_rag.py`, `src/rag.py`,
  `src/rag_pipeline.py` and `src/llm.py`, where Gemini is primary and Groq
  the fallback.

Every outside effect is an input, so every model is a pure function:

- `Llm.Call` says what a raw `llm.invoke` returns on each backend;
- `Llm.Env` says which backends initialise;
- `Retrieval.Store` is the vector store;
- `Json.Parser` is `json.loads`;
- the web-search outcome and the database's behaviour are plain values.

The agent state is an immutable record, and each graph node is a function
on it. The graph engine (`Graph.RunFrom`) is generic over the node updates,
so its shape lemmas hold for any node behaviour.

Modules:

- `Wrappers`: `Option` and `Result`.
- `Text`: whitespace, strip, ASCII lower-casing, substrings, joins and
  decimal rendering.
- `Json`: decoded JSON values and the two extraction regular expressions.
- `ChatHistory`: messages and `format_chat_history`.
- `Llm`: the LLM manager.
- `Retrieval`: `retrieve_context`.
- `Formatter`: `format_context` and the prompts.
- `Rag`: `generate_response`, `query_rag` and `RAGPipeline`.
- `WebSearch`: the Tavily tool.
- `AgentState`: the agent state.
- `Router`: the supervisor.
- `SubAgents`: the tax, PAYE, combined and financial agents.
- `Responder`: the responder and the edge functions.
- `Graph`: the compiled graph.
- `Lifecycle`: the checkpointer and compiled-graph singletons.
- `MainAgent`: `main_agent`.
- `MetaPrompt`: the meta-prompting helpers.
- `PersonalizedPrompts`: the example prompts.
- `Schema`: the request and response schemas.
- `ChatApi`: the endpoints.

## Model

| member | source | states |
|---|---|---|
| ChatHistory.Last | src/agent/utils.py:12 | `s[-n:]` keeps the last `min(n, len)` elements, as a suffix of the input |
| ChatHistory.Line | src/agent/utils.py:13-19 | a human message renders as "User: " plus its content; every other kind as "Assistant: " plus its content |
| ChatHistory.Lines | src/agent/utils.py:12-19 | one line per message, in message order |
| ChatHistory.SentinelIffEmpty | src/agent/utils.py:8-21 | the rendering is "No previous conversation." exactly when there are no messages |
| ChatHistory.OnlyWindowMatters | src/agent/utils.py:12 | only the last `window` messages influence the rendering |
| ChatHistory.SameWindowSameRendering | src/agentic_rag.py:426-441 | two conversations that agree on their last `window` messages (6 in the monolithic agent) render identically |
| ChatHistory.AppendAddsLine | src/agent/utils.py:12-21 | while the conversation fits the window, a new message adds exactly its line at the end, after "\n" |
| ChatHistory.RouterSeesLastFour | src/agent/sub_agents/router.py:20 | the router's history is the rendering of at most the last four messages, or the sentinel when there are none |
| Text.Strip | src/agent/sub_agents/router.py:56 | the result has no whitespace at either end, is obtained by removing whitespace from both ends only, and is empty exactly when the input is all whitespace |
| Text.StripOfPadded | src/agent/sub_agents/router.py:56 | stripping a word padded with whitespace gives the word back |
| Text.Lower | src/agent/sub_agents/router.py:56 | lower-casing keeps the length and maps every character by itself |
| Text.NatToStringRoundTrip | src/tools/retrieval/formatter.py:21-27 | the decimal numeral of a document number reads back as that number |
| Json.FirstFrom | src/services/personalized_prompts.py:63-65 | the first index at or after `from` holding the character, or none when no such index exists |
| Json.LastBefore | src/services/personalized_prompts.py:63-65 | the last index before `upTo` holding the character, or none when no such index exists |
| Json.ObjectSpanFrom | src/agent/meta_prompt.py:58-60 | the span `re.search(r'\{[^}]+\}')` finds: it matches, no earlier start matches, and none at all when nothing matches |
| Json.ExtractObject | src/agent/meta_prompt.py:58-62 | the decoded text is the first brace span, opening with "{" and closing with "}", or the whole reply when there is none |
| Json.NestedObjectIsCut | src/agent/meta_prompt.py:58-60 | a nested object is cut at its inner closing brace, because the pattern cannot see nesting |
| Json.ArraySpan | src/services/personalized_prompts.py:63-65 | the span `re.search(r'\[.*\]', re.DOTALL)` finds: the leftmost "[" and the greedy last "]" after it, or none when no "[" precedes a "]" |
| Json.ExtractArray | src/services/personalized_prompts.py:63-67 | the decoded text is that bracketed span, or the whole reply when there is none |
| Json.ArrayAmidChatter | src/services/personalized_prompts.py:63-65 | chatter around a bracketed text is dropped |
| Llm.NewManager | src/services/llm.py:16-31 | a new manager takes the environment's settings and has no client and no active model; this is the constructor as intended (see Findings) |
| Llm.FirstMissing | src/configurations/config.py:3-20 | reading settings attributes in turn fails exactly when one of them is not a declared field, and names the first such attribute |
| Llm.ConstructModular | src/services/llm.py:16-31 | the modular constructor succeeds exactly when every attribute it reads is declared, and then builds the manager `NewManager` describes; otherwise it raises for an undeclared attribute |
| Llm.ModularConstructorRaises | src/services/llm.py:20 | as written the constructor reads `COHERE_MODEL`, which the settings class lacks, so `LLMManager()` raises `'Settings' object has no attribute 'COHERE_MODEL'` in every environment |
| Llm.IntendedConstructorBuilds | src/services/llm.py:20-27 | reading the Cohere model from `GROQ_MODEL`, as the line's comment says, the constructor builds the intended manager in every environment |
| Llm.ActiveModel | src/services/llm.py:149-151 | `get_active_model` is None until a backend is active, and the active backend's name afterwards |
| Llm.GetLlm | src/services/llm.py:79-116 | the cached client comes back unless forced; forcing never initialises the primary backend; a fresh initialisation prefers the primary and activates the backend it picks; failure is the initialisation error exactly when every backend it may try is down, and then nothing changes |
| Llm.FirstAttempt | src/services/llm.py:129-133 | one `get_llm` and raw call; an initialisation failure leaves the manager as it was |
| Llm.Invoke | src/services/llm.py:118-147 | a failure outside the retry condition is returned unchanged; when both attempts fail, both errors are reported; in the modular code a call never ends on Groq through the retry |
| Llm.ModularRetryStaysOnCohere | src/services/llm.py:137-142 | with Cohere active and failing, and Groq up and answering, the call still fails with both errors and Cohere stays active |
| Llm.InitBackend | src/services/llm.py:106-111 | initialising a named backend succeeds exactly when it is up, and activates it |
| Llm.InvokeOtherBackend | src/services/llm.py:136-145 | the retry as the code's comments describe it: outside the retry condition the first attempt stands; a rescued call ends on the other backend |
| Llm.OtherBackendRescues | src/services/llm.py:136-145 | when the retried backend fails and the other is up and answers, the corrected call succeeds with that answer |
| Llm.LegacyInvokeIsOtherBackend | src/llm.py:145-174 | in the monolithic code the forced retry already reaches the other backend, so its `invoke` equals the corrected definition on every input |
| Llm.AskFresh | src/agent/sub_agents/router.py:48-56 | a fresh manager's `get_llm()` then one raw call fails exactly when no backend is up or the chosen backend's call fails; on success it reports the reply and that backend's name |
| Llm.AskContent | src/agent/sub_agents/financial_advice.py:56-62 | `response.content` is available exactly when the fresh call succeeded with a reply that has content |
| Llm.Content | src/agent/sub_agents/router.py:53-56 | the content and model are available exactly when the call succeeded with a reply that has content |
| Llm.AskFreshAsWritten | src/agent/sub_agents/router.py:48-53 | as written a construction error is raised before `get_llm`; once the manager is built the call is the intended one |
| Llm.ModularStepsAsUnconfigured | src/services/llm.py:20 | as written every modular LLM step fails at construction, so a node that catches the error behaves exactly as with no backend configured; the monolithic steps are unchanged |
| Retrieval.Insert | src/tools/retrieval/retriever.py:52 | insertion adds exactly the new document to the multiset of documents |
| Retrieval.InsertSorted | src/tools/retrieval/retriever.py:52 | insertion into a sequence sorted by score keeps it sorted |
| Retrieval.SortByScore | src/tools/retrieval/retriever.py:52 | the sort returns a permutation of its input, sorted ascending by score |
| Retrieval.SortIsStable | src/tools/retrieval/retriever.py:52 | for every score, the documents with that score keep their input order |
| Retrieval.Collected | src/tools/retrieval/retriever.py:32-49 | a collection type other than tax, paye or both consults no collection and yields nothing |
| Retrieval.RetrieveContext | src/tools/retrieval/retriever.py:8-59 | the result is sorted ascending by score, is a permutation of the selected hits, and is `[]` when a store query raised |
| Retrieval.RetrievedInOrder | src/tools/retrieval/retriever.py:32-52 | "tax" consults only the tax collection, "paye" only the PAYE one, "both" both; for each score, tax hits precede PAYE hits |
| Retrieval.EffectiveK | src/rag_pipeline.py:89 | an absent or zero `top_k` falls back to the instance default; any other value is used |
| Formatter.DocumentPart | src/tools/retrieval/formatter.py:21-27 | each part opens with its "[Document i - type - source]" header |
| Formatter.DocumentParts | src/tools/retrieval/formatter.py:21-27 | part i belongs to document i, numbered from 1, in input order |
| Formatter.FormatContext | src/tools/retrieval/formatter.py:7-29 | the context is "No relevant documents found." exactly when no document was retrieved |
| Formatter.FormatContextSnoc | src/tools/retrieval/formatter.py:21-29 | one more document appends its part, with the next number, after "\n" |
| Formatter.ScoreNotRendered | src/tools/retrieval/formatter.py:21-27 | documents that differ only in their scores format identically |
| Formatter.HistorySection | src/tools/retrieval/formatter.py:44-46 | the history section is empty exactly when the history is empty, whitespace only, or the sentinel; otherwise it embeds the history under its heading |
| Formatter.LanguageInstruction | src/tools/retrieval/formatter.py:50-61 | the Pidgin instruction is chosen exactly when some marker occurs in the lower-cased query |
| Formatter.LiabilityReadsAsPidgin | src/tools/retrieval/formatter.py:50-51 | substring matching reads "my tax liability" as Pidgin through the marker "abi" |
| Formatter.PlainQueryIsStandard | src/tools/retrieval/formatter.py:50-61 | a query containing no marker gets the Standard English instruction |
| Formatter.CreatePrompt | src/tools/retrieval/formatter.py:63-87 | the prompt contains the query, the context, the history section and the language instruction |
| Formatter.LegacyCreatePrompt | src/rag.py:111-136 | the monolithic prompt contains the query, the context and the history section |
| Formatter.PipelinePrompt | src/rag_pipeline.py:147-176 | the pipeline prompt contains the query and the context |
| Rag.Truncate | src/tools/rag.py:106 | a text of at most 200 characters is unchanged; a longer one keeps its first 200 characters and ends in "..." |
| Rag.TruncateIdempotent | src/tools/rag.py:106 | truncating a truncated text changes nothing |
| Rag.ToSources | src/tools/rag.py:104-112 | one source per retrieved document, in order |
| Rag.SourcesFollowDocs | src/tools/rag.py:104-112 | each source keeps its document's source, type and score, and a prefix of its text |
| Rag.ToSourcesAppend | src/rag.py:266-274 | the sources of concatenated document lists are the concatenated sources |
| Rag.ErrorResult | src/tools/rag.py:117-123 | an exception gives "An error occurred while processing your query: " plus its text, with sources `[]` and no model |
| Rag.FreshManager | src/tools/retrieval/generator.py:29-32 | the modular `generate_response` overrides temperature and token limit on its fresh manager; the monolithic one gets the configured settings |
| Rag.GenerateResponse | src/tools/retrieval/generator.py:35-42 | initialisation and call errors propagate; the answer is `content`, or `str(response)` without it; the model is the active one afterwards |
| Rag.LegacyIgnoresSettings | src/rag.py:162-163 | the monolithic fresh manager does not depend on the temperature or token limit passed in |
| Rag.Respond | src/tools/rag.py:73-115 | no documents gives the fixed answer and makes no LLM call; a failed generation gives the error result; otherwise answer and model come from the generation, with sources exactly when requested |
| Rag.RagPrompt | src/tools/rag.py:82-85 | the prompt contains the query and the formatted context, plus the language instruction in the modular layout |
| Rag.QueryRag | src/tools/rag.py:21-123 | `query_rag` end to end: empty retrieval gives the not-found result; a raising generation gives the error result; success carries the answer, the model `get_active_model()` reports, and the sources one-to-one when requested |
| Rag.ModelAbsentIffDegraded | src/tools/rag.py:73-123 | a result names no model exactly when nothing was retrieved or generation raised, and such results carry sources `[]` |
| Rag.FreshManagerAsWritten | src/tools/retrieval/generator.py:29-32 | as written the modular manager creation always raises the missing-setting error; the monolithic one builds the intended manager |
| Rag.QueryRagAsWritten | src/tools/rag.py:63-123 | as written the modular `query_rag` gives the not-found result for an empty retrieval and otherwise always the error result naming `COHERE_MODEL`; the monolithic one equals `Rag.QueryRag` |
| Rag.ModularQueryNeverAnswers | src/tools/rag.py:117-123 | as written the modular `query_rag` never names a model and always returns an empty source list |
| Rag.NewPipeline | src/rag_pipeline.py:36-70 | a new pipeline's manager has no cached client |
| Rag.PipelineQuery | src/rag_pipeline.py:178-266 | a pipeline query changes only the shared manager; empty retrieval returns the not-found result and leaves the pipeline as it was; with documents, an initialisation failure or a raising call gives the error result, and a reply gives its content (or `str(reply)`), the active model, and the sources exactly when requested |
| Rag.FreshPipelineIsQueryRag | src/rag_pipeline.py:178-266 | a fresh pipeline's first query retrieves what monolithic `query_rag` (src/rag.py:183) retrieves for the matching request, and returns the same result when the backends' replies do not depend on the prompt |
| Rag.PromptIndependent | src/tools/rag.py:73-115 | a response depends on the prompt only through the backend call |
| Rag.ZeroTopKUsesDefault | src/rag_pipeline.py:89 | `top_k = 0` retrieves exactly as no `top_k` does |
| Rag.PipelineKeepsClient | src/rag_pipeline.py:228 | once the manager has a client, unforced queries never initialise again |
| Rag.RunBatch | src/rag_pipeline.py:286-298 | a batch yields one result per query |
| Rag.RunBatchStep | src/rag_pipeline.py:288-295 | each loop iteration appends the next query's result and threads the pipeline on |
| Rag.RunBatchInOrder | src/rag_pipeline.py:286-298 | result i is query i run on the pipeline the earlier queries left: results come in input order |
| Rag.BatchStepFrame | src/rag_pipeline.py:268-298 | one query of the batch changes only the pipeline's manager |
| Rag.BatchQuery | src/rag_pipeline.py:268-298 | `batch_query` returns exactly one result per query, in input order, and changes only the pipeline's manager |
| WebSearch.GetTavily | src/tools/web_search.py:9-40 | a tool exists exactly when an API key is set and construction does not raise, restricted to the six fixed domains |
| WebSearch.EntryText | src/tools/web_search.py:80-86 | `result.get(key, "")` in the f-string: a missing entry renders "", a present `None` renders "None", a string renders as itself |
| WebSearch.ResultPart | src/tools/web_search.py:79-87 | entry i opens with "[" and contains the rendering of its URL and its content |
| WebSearch.NullEntryIsNotMissing | src/tools/web_search.py:80-86 | a hit whose `url` is present as `None` renders four characters longer than one with no `url`, so the two differ |
| WebSearch.ResultParts | src/tools/web_search.py:79-87 | entry i renders result i, numbered from 1, in order |
| WebSearch.FormatWebResults | src/tools/web_search.py:73-89 | the rendering is "" exactly when there are no results |
| WebSearch.FormatWebResultsSnoc | src/tools/web_search.py:79-89 | one more result appends its entry, with the next number, after "\n" |
| WebSearch.FormatSingleResult | src/tools/web_search.py:79-89 | one result renders as its single entry |
| WebSearch.SearchWeb | src/tools/web_search.py:43-70 | "" without a tool or when the search raises, the rendered results otherwise |
| WebSearch.SearchWebNonEmpty | src/tools/web_search.py:54-76 | a search yields text exactly when a key is set, construction and search succeed, and there is at least one hit |
| AgentState.InitialState | src/agent/main_agent.py:50-59 | every request starts with empty route, answers and sources and an empty model, and keeps the query; the user id exists only in the modular state |
| AgentState.AgentRequest | src/agent/sub_agents/tax_policy.py:20-26 | a knowledge query as the agents issue it: their collection and k, sources requested, no forced fallback, the given history, the default collection names |
| Router.ChooseRoute | src/agent/sub_agents/router.py:56-68 | the stored route is always valid; a normalised reply in the route set is kept; anything else, including a raised call, gives "both" |
| Router.RouteReplyAccepted | src/agent/sub_agents/router.py:56-61 | a reply that differs from a route only by surrounding whitespace selects that route |
| Router.RouteWord | src/agent/sub_agents/router.py:59 | every route is a non-empty lower-case word without surrounding whitespace |
| Router.RoutingPrompt | src/agent/sub_agents/router.py:22-45 | the prompt contains the query; the modular one also the last four messages and the previous route |
| Router.RouteQuery | src/agent/sub_agents/router.py:9-70 | `route_query` writes only the route, and the route is always one the agent accepts |
| Router.NoBackendRoutesBoth | src/agent/sub_agents/router.py:66-68 | with no backend up the call raises and the route is "both" |
| Router.LegacyNeverFinancial | src/agentic_rag.py:80-92 | the monolithic router never stores "financial" |
| SubAgents.MergeSources | src/agent/sub_agents/tax_policy.py:34-37 | replacing empty sources and extending others both append: existing sources stay first, in order |
| SubAgents.CombinedRequest | src/agent/sub_agents/combined_agent.py:15-20 | the combined query passes the default history " ", which renders no history section |
| SubAgents.TaxPolicyAgent | src/agent/sub_agents/tax_policy.py:9-40 | the tax agent writes its answer and the model from the query result, appends its sources, and changes nothing else |
| SubAgents.PayeAgent | src/agent/sub_agents/paye.py:9-33 | the PAYE agent writes its answer and the model, appends its sources, and changes nothing else |
| SubAgents.CombinedAgent | src/agent/sub_agents/combined_agent.py:9-34 | the combined agent's answer becomes final, its sources replace the old ones, and its messages are the query-answer turn |
| SubAgents.AgentsKeepOtherAnswers | src/agentic_rag.py:101-152 | the tax agent keeps the PAYE answer and the PAYE agent the tax answer; neither writes the final answer, route or messages |
| SubAgents.SourcesAccumulateInOrder | src/agent/sub_agents/paye.py:26-30 | tax then PAYE collects the old sources, then the tax sources, then the PAYE sources |
| SubAgents.FinancialPrompt | src/agent/sub_agents/financial_advice.py:26-53 | the advice prompt contains the web text, the query, and the history section |
| SubAgents.WebFallback | src/agent/sub_agents/financial_advice.py:65-67 | the failure answer embeds the raw web text |
| SubAgents.FinancialAnswer | src/agent/sub_agents/financial_advice.py:22-72 | no web text gives the fixed answer without any LLM call; with web text the LLM's text and model, or the web fallback when it raised |
| SubAgents.FinancialAdviceAgent | src/agent/sub_agents/financial_advice.py:11-84 | the final answer equals the financial answer; the messages are its turn; the model changes only when the LLM answered; nothing else changes |
| SubAgents.FailedAdviceShowsSources | src/agent/sub_agents/financial_advice.py:65-75 | after an LLM failure the final answer still contains the web text |
| Responder.SynthesisPrompt | src/agent/response_generator.py:19-47 | the synthesis prompt contains the query, both answers and the rendered history |
| Responder.SimpleCombination | src/agent/response_generator.py:59-68 | the fallback text starts with its heading and the tax answer and ends with the PAYE answer |
| Responder.Respond | src/agent/response_generator.py:18-76 | both answers give the LLM's synthesis and model, or the labelled combination with the model unchanged; exactly one answer passes through; none keeps the previous final answer |
| Responder.ResponseGenerator | src/agent/response_generator.py:10-84 | the responder writes only the final answer, the model and the turn |
| Responder.SingleAnswerPassesThrough | src/agent/response_generator.py:71-76 | with exactly one non-empty answer, the final answer is that answer verbatim |
| Responder.NoBackendCombines | src/agentic_rag.py:195-251 | without a backend, two answers are combined without the LLM, and both appear in the result |
| Responder.DecideNextStep | src/agent/response_generator.py:87-98 | "tax" selects the tax agent, "paye" the PAYE agent, every other route the combined agent |
| Responder.FinancialNeverSelected | src/agent/response_generator.py:93-98 | the financial agent is never selected; "financial" goes to the combined agent |
| Responder.DecideAfterAgents | src/agent/response_generator.py:101-109 | "responder" exactly when both answers are non-empty, "end" otherwise |
| Graph.SupervisorTargets | src/agent/graph_builder/compiled_agent.py:104-113 | the supervisor's path map registers tax, PAYE and combined agents, and the financial agent only in the modular graph |
| Graph.Next | src/agent/graph_builder/compiled_agent.py:101-128 | the node after each node follows a declared edge |
| Graph.RunFrom | src/agent/graph_builder/compiled_agent.py:101-128 | a run from a node is empty exactly at the end and starts with that node |
| Graph.RunShape | src/agent/graph_builder/compiled_agent.py:101-128 | whatever the node updates, a run is the supervisor, its picked node, and the responder after a knowledge agent |
| Graph.PickedNode | src/agent/graph_builder/compiled_agent.py:104-113 | the supervisor's edge picks the tax agent for "tax", the PAYE agent for "paye", the combined agent otherwise |
| Graph.VisitsByRoute | src/agent/graph_builder/compiled_agent.py:101-128 | the route alone decides the path: tax and PAYE go through their agent and the responder, everything else through the combined agent |
| Graph.RunFollowsEdges | src/agent/graph_builder/compiled_agent.py:101-128 | every run starts at the supervisor, follows the edges, visits two or three nodes, ends at the end, and never reaches the financial agent |
| Graph.SupervisorKeepsMessages | src/agent/sub_agents/router.py:63-70 | the supervisor changes neither the messages nor the query |
| Graph.KnowledgeKeepsMessages | src/agent/sub_agents/tax_policy.py:29-40 | the knowledge agents keep messages, query and route |
| Graph.AnsweringAppendsTurn | src/agent/graph_builder/agent_state.py:10 | the combined, financial and responder nodes append their turn through `add_messages` |
| Graph.RunAppendsTurn | src/agent/graph_builder/agent_state.py:10 | a run appends exactly one turn, the query and the final answer, and ends with the supervisor's route |
| Graph.TaxRouteAnswersFromTaxAgent | src/agent/response_generator.py:70-72 | on the tax route from reset answers, the final answer is the tax agent's knowledge answer and no synthesis happens |
| Graph.TaxRunFinal | src/agent/graph_builder/compiled_agent.py:101-128 | on the tax route a run's final state is the responder applied after the tax agent |
| Graph.ResponderPassesTax | src/agent/response_generator.py:70-72 | with no PAYE answer and no final answer, the responder's answer is the tax answer |
| Graph.NoBackendQueryDegraded | src/tools/rag.py:73-123 | without a backend every knowledge query is the not-found or initialisation-error result, with no model |
| Graph.NoBackendDegrades | src/agent/sub_agents/router.py:66-68 | without a backend a run takes the combined path and ends with a degraded answer, no model and no sources |
| Graph.AfterAgentsNotWired | src/agent/graph_builder/compiled_agent.py:116-120 | after the tax agent `decide_after_agents` would say "end", yet the graph always continues to the responder |
| Lifecycle.CloseCheckpointer | src/agent/graph_builder/compiled_agent.py:137-151 | closing resets all four globals to their initial values, also when closing the pool fails |
| Lifecycle.GetCheckpointer | src/agent/graph_builder/compiled_agent.py:26-73 | the existing checkpointer is reused; no URL gives none and changes nothing; an open or setup error resets the globals and is raised again; success records an initialised checkpointer; consistency is kept |
| Lifecycle.GetCompiledAgent | src/agent/graph_builder/compiled_agent.py:76-134 | a cached graph is returned unchanged; otherwise checkpointer errors propagate and the new graph is cached, checkpointed exactly when a checkpointer exists |
| Lifecycle.CompiledOnce | src/agent/graph_builder/compiled_agent.py:83-84 | once compiled, later calls return the same graph and change nothing, whatever the database does |
| Lifecycle.CheckpointedIffConnected | src/agent/graph_builder/compiled_agent.py:31-62 | from a fresh process compilation succeeds exactly when there is no URL or connecting works, and the graph has memory exactly when a URL is set |
| Lifecycle.ReinitialisesAfterClose | src/agent/graph_builder/compiled_agent.py:137-151 | after closing, the next request behaves as in a fresh process |
| Lifecycle.FailureRetriesLater | src/agent/graph_builder/compiled_agent.py:70-73 | a failed connection leaves nothing behind, so the next request connects again |
| MainAgent.PriorMessages | src/agent/main_agent.py:62-65 | a run starts from the thread's saved messages when the graph has a checkpointer, from none otherwise |
| MainAgent.Shape | src/agent/main_agent.py:68-76 | answer, model and route are copied from the final state; sources appear exactly when requested and non-empty |
| MainAgent.Ask | src/agent/main_agent.py:11-80 | compilation errors propagate; otherwise the response is shaped from the run's final state, saved under the thread id when checkpointed |
| MainAgent.AskRemembersTurn | src/agent/main_agent.py:62-65 | with a checkpointer the thread grows by the query and the answer, and no other thread changes; without one nothing is saved |
| MainAgent.SaveKeepsOthers | src/agent/main_agent.py:62-65 | saving a checkpoint under one thread sets that thread's values and leaves every other thread's checkpoint as it was |
| MainAgent.AskReportsValidRoute | src/agent/main_agent.py:68-72 | the reported route is always one the agent accepts |
| MainAgent.RouterNeverSeesLastRoute | src/agent/main_agent.py:50-59 | the route is reset on every request, so the routing prompt always says there is no previous route |
| MetaPrompt.AnalysisPrompt | src/agent/meta_prompt.py:15-48 | the analysis prompt contains the query, and the history or "No previous conversation" |
| MetaPrompt.GroupedAmountIsSalary | src/agent/meta_prompt.py:69 | a digit, a comma and a digit anywhere in the query count as a salary |
| MetaPrompt.NoDigitNoSalary | src/agent/meta_prompt.py:69 | every alternative of the salary pattern needs a digit, so a query without one never mentions a salary |
| MetaPrompt.Fallback | src/agent/meta_prompt.py:71-78 | the fallback analysis is an object with an "approach" key |
| MetaPrompt.FallbackMeaning | src/agent/meta_prompt.py:71-78 | calculation request and clarification both equal the salary test; missing info is non-empty exactly with a salary; approach is "collect" with a salary and "direct" otherwise |
| MetaPrompt.AnalyzeQuery | src/agent/meta_prompt.py:9-78 | the analysis always has an "approach" key; a decoded object with that key is returned as is; every failure gives the salary-based fallback |
| MetaPrompt.AnalysisNeedsApproach | src/agent/meta_prompt.py:63-66 | a decoded value without an "approach" key falls through to the fallback |
| MetaPrompt.ClarificationPrompt | src/agent/meta_prompt.py:88-114 | the prompt contains the query, the mood and the missing fields joined by ", " |
| MetaPrompt.GenerateClarificationRequest | src/agent/meta_prompt.py:81-123 | an impatient user gets nothing and no LLM call; otherwise the LLM's text exactly when the call succeeds |
| MetaPrompt.ConditionalPrompt | src/agent/meta_prompt.py:130-150 | the prompt contains the query, the missing fields and the partial answer |
| MetaPrompt.GenerateConditionalAnswer | src/agent/meta_prompt.py:126-159 | the LLM's text, or the partial answer when the call raised |
| MetaPrompt.EngagementPrompt | src/agent/meta_prompt.py:166-183 | the prompt contains the query, the context, and the history or "First message" |
| MetaPrompt.CreateEngagementResponse | src/agent/meta_prompt.py:162-192 | the LLM's text, or the context when the call raised |
| MetaPrompt.NoBackendFallbacks | src/agent/meta_prompt.py:66-192 | without a backend the helpers return the salary-based analysis, nothing, the partial answer and the context |
| PersonalizedPrompts.FallbackPrompts | src/services/personalized_prompts.py:76-89 | the fallback list has exactly eight entries, the fixed questions in order |
| PersonalizedPrompts.FromDecoded | src/services/personalized_prompts.py:69-74 | a decoded list keeps its first eight items and a string its first eight characters; any other value raises |
| PersonalizedPrompts.Generate | src/services/personalized_prompts.py:56-89 | generated prompts never exceed eight; an LLM failure gives the fallback list |
| PersonalizedPrompts.GetPersonalizedPrompts | src/services/personalized_prompts.py:19-89 | a cached value is returned as is; otherwise the generated value is returned; either way it becomes the cache |
| PersonalizedPrompts.RepeatedCallsAgree | src/services/personalized_prompts.py:28-29 | once a call has returned, every later call returns the same prompts, whatever the backends do then |
| PersonalizedPrompts.LongListIsCut | src/services/personalized_prompts.py:73-74 | a decoded list of eight or more keeps exactly its first eight items, in order |
| PersonalizedPrompts.OtherValueFallsBack | src/services/personalized_prompts.py:67-89 | a reply that decodes to neither a list nor a string gives the fallback list |
| Schema.RequiredString | src/api/utilis/schema.py:9 | a required string field has no error exactly when it is given |
| Schema.QueryErrors | src/api/utilis/schema.py:10 | the query has no error exactly when it is given with 1 to 1000 characters, and at most one error otherwise |
| Schema.ThreadValue | src/api/utilis/schema.py:11 | a missing thread id defaults to "default"; null stays null; a given one is kept |
| Schema.ValidateChatRequest | src/api/utilis/schema.py:7-11 | a body validates exactly when the user id is given and the query has 1 to 1000 characters; otherwise every field's errors are reported |
| Schema.ValidateEncodeRoundTrip | src/api/utilis/schema.py:7-11 | every request with a valid query survives being sent and validated again |
| Schema.EmptyQueryRejected | src/api/utilis/schema.py:10 | an empty query is always rejected as too short |
| Schema.MakeChatResponse | src/api/utilis/schema.py:13-19 | the response validates exactly when the thread id is a string, and then carries the given fields |
| ChatApi.ChatError | src/api/routes/chat_agent.py:64-69 | every chat failure is a 500, whose detail is the fixed prefix plus the error text |
| ChatApi.Chat | src/api/routes/chat_agent.py:31-69 | errors of compiling the agent are reported; a null thread id is rejected when the response is built; otherwise answer and route become bot response and data source, the agent saves its checkpoint at one instant (`savedAt`), and the response carries a separate `utcnow()` reading (`respondedAt`, line 61) |
| ChatApi.SecondChatSeesFirst | src/api/routes/chat_agent.py:48-53 | on a checkpointed graph a chat succeeds and saves its turn on the thread |
| ChatApi.Row | src/api/routes/chat_agent.py:137-146 | a human message becomes a "user" row, every other message an "assistant" row, with its content and the checkpoint's time |
| ChatApi.QueryConversationHistory | src/api/routes/chat_agent.py:115-152 | no rows without a checkpointer, without a checkpoint, or when reading raises; otherwise one row per saved message, in order |
| ChatApi.HistoryIgnoresUser | src/api/routes/chat_agent.py:115-146 | the rows do not depend on the user id |
| ChatApi.HistoryError | src/api/routes/chat_agent.py:80-84 | no history is a 404 "Conversation history not found" |
| ChatApi.GetConversationHistory | src/api/routes/chat_agent.py:72-91 | the response fails exactly when there are no rows; otherwise it carries the rows and their count |
| ChatApi.ChatThenHistory | src/api/routes/chat_agent.py:72-91 | after a chat on a checkpointed graph, the thread's history is found and ends with the query and the answer, both rows stamped with the checkpoint's `ts` rather than the chat response's timestamp |
| ChatApi.ChatSavesTurn | src/api/routes/chat_agent.py:48-61 | a chat on a checkpointed graph succeeds with the response instant as its timestamp, and saves its turn under the thread at the checkpoint instant |
| ChatApi.RowsEndWithTurn | src/api/routes/chat_agent.py:137-146 | a checkpoint ending with a turn reads back with that turn's user and assistant rows last, stamped with the checkpoint's `ts` |

## Left out

- Calls to the LLM providers, the vector store and Tavily: their outcomes are inputs (`Llm.Call`, `Llm.Env`, `Retrieval.Store`, `WebSearch.SearchWeb`'s `search`).
- `json.loads`: the decoder is an input (`Json.Parser`); JSON numbers are integers.
- Regular expressions: only the three used ones are modelled, and Python's `\d` and `str.lower` are taken to be ASCII: Unicode digits and case mapping are not modelled. `\s` and `str.strip` use Python's full whitespace set.
- Similarity scores are integers, since only their order matters; the temperature is a `real` that is only passed through.
- Prompt wording is kept as abbreviated constants. Only the pieces a property speaks about (query, context, history, answers) are exact.
- The `asyncio` structure, the Postgres connection pool and `AsyncPostgresSaver`: the database is a value saying what opening and setup do. The checkpointer store is a map from thread ids to the last saved state and its timestamp.
- LangGraph's `add_messages` reducer is modelled as appending a node's turn. Message ids and replacement by id are not modelled.
- `financial_advice.py` imports `search_financial_web`, which `src/tools/web_search.py` does not define. That import raises `ImportError`, and `src/agent/graph_builder/compiled_agent.py:14` imports `financial_advice.py`. So as written the modular graph cannot be loaded, and neither can `src/agent/main_agent.py`, the chat routes or `src/main.py`, which import it. The model describes these modules as they would run if the name resolved, with the web text the agent receives as an input. `Graph`, `Lifecycle`, `MainAgent`, `ChatApi` and `SubAgents.FinancialAdviceAgent` describe that intended behaviour.
- `AgentState` has no `financial_answer` field, so `SubAgents.FinancialAdviceAgent` returns that value beside the state.
- Logging, the `get_llm` convenience functions (`src/services/llm.py:155-177`, `src/llm.py:182-213`) and the example `__main__` blocks are left out.
- The monolithic constructor reads `TEMPERATURE` and `MAX_TOKENS` with `float()` and `int()`, which raise when they are unset. The model takes the environment as configured.
- Llm.NewManager, Llm.AskFresh, Llm.AskContent and Rag.FreshManager describe the modular constructor as intended, building the manager. As written it raises in every environment (see Findings; `Llm.AskFreshAsWritten`, `Rag.QueryRagAsWritten`). The agent nodes built on them (`Router.ChooseRoute`, `Responder.Respond`, `SubAgents.FinancialAnswer`, the `MetaPrompt` and `PersonalizedPrompts` helpers, and `Rag.QueryRag` in the modular variant) therefore describe the intended code. By `Llm.ModularStepsAsUnconfigured`, the code as written behaves as these members do with no backend configured (`Router.NoBackendRoutesBoth`, `Responder.NoBackendCombines`, `MetaPrompt.NoBackendFallbacks`).
- Which backends initialise (`Llm.Env`'s `up`) is fixed for a whole request. The monolithic constructor's "Hi" test call (`src/llm.py:73`, `src/llm.py:98`) is sent again on every initialisation and retry, and could answer differently each time; that is not modelled.
- A document's `source` (and its `type`) is `None` both when the metadata has no such key and when the key holds `None`. `src/tools/retrieval/formatter.py:22-23` renders the first as "Unknown" and the second as "None"; the model renders both as "Unknown".
- A caller-supplied `llm_manager` in `query_rag` is not modelled, because no caller passes one. `RAGPipeline` reuses its manager through `Rag.PipelineQuery`.
- The vector-store creation in `RAGPipeline.__init__` and `initialize_pipeline` are ingestion I/O and are left out.
- The edit, list-sessions and delete-session handlers (`src/api/routes/chat_agent.py:94-107`) are empty stubs and are not modelled.
- ChatApi.Chat: a null thread id is not passed to the agent. The source passes it on and the response then fails validation; both give a 500, but the model does not run the agent first.
- ChatApi.ChatError: the text of a pydantic validation error is not modelled; that detail is the bare prefix.
- ChatApi.QueryConversationHistory: every checkpoint carries a timestamp, so the per-message `utcnow()` default is not modelled.
- ChatApi.HistoryError: the body of FastAPI's 500 for an unhandled error is a fixed text here.
- Schema.ValidateChatRequest: field types other than string or null are not modelled, and error messages are reduced to the field and kind.

## Findings

| source | as written | input that shows it | evidently intended | confidence | as-written member | corrected member |
|---|---|---|---|---|---|---|
| src/services/llm.py:137-142 | after a Cohere invocation failure, `invoke` retries with `force_fallback=True`, which skips Groq (line 97) and initialises Cohere again | Cohere cached and active, its call failing; Groq up and answering | the retry goes to Groq, as the comment on line 136 and the log on line 139 say, and as the monolithic manager does | not executed | Llm.ModularRetryStaysOnCohere | Llm.OtherBackendRescues |
| src/services/llm.py:20 | `LLMManager.__init__` reads `settings.COHERE_MODEL`, a field the settings class (`src/configurations/config.py:3-20`, extra entries ignored) does not declare, so every modular `LLMManager()` raises `AttributeError`. The routing, synthesis, financial, meta-prompt and example-prompt nodes and the modular `query_rag` all catch it and degrade | any environment, e.g. both backends configured and answering | the constructor builds the manager (the comment says Cohere uses the same model setting, i.e. `GROQ_MODEL`), as the rest of this model assumes | not executed | Llm.ModularConstructorRaises | Llm.IntendedConstructorBuilds |
