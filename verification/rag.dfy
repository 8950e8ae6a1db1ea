/** `query_rag` and its pieces: `generate_response`, the source list with
    its 200-character truncation, the two degraded results, and the
    pipeline class that keeps one manager across queries. */
module Rag {
  import opened Wrappers
  import opened Text
  import opened Llm
  import opened Retrieval
  import Formatter

  // ---------------------------------------------------------------------
  // Sources

  /** How many characters of a document's text a source keeps. */
  const SourceLimit: nat := 200

  /** `text[:200] + "..." if len(text) > 200 else text`. */
  function Truncate(text: string): (r: string)
    ensures |text| <= SourceLimit ==> r == text
    ensures Prefix(text, SourceLimit) <= r
    ensures |text| > SourceLimit ==> |r| == SourceLimit + 3 && r[SourceLimit..] == "..."
  {
    if |text| > SourceLimit then text[..SourceLimit] + "..." else text
  }

  /** Truncating twice is truncating once: the marked text is cut at the
      same place again. */
  lemma TruncateIdempotent(text: string)
    ensures Truncate(Truncate(text)) == Truncate(text)
  {
    if |text| > SourceLimit {
      assert Truncate(text)[..SourceLimit] == text[..SourceLimit];
    }
  }

  /** One entry of the `sources` list. */
  datatype Source = Source(text: string, source: Option<string>, docType: Option<string>, score: int)

  function ToSource(d: Doc): Source {
    Source(Truncate(d.text), d.source, d.docType, d.score)
  }

  /** The sources list: one entry per retrieved document, in order. */
  function ToSources(docs: seq<Doc>): (r: seq<Source>)
    ensures |r| == |docs|
    ensures forall i :: 0 <= i < |docs| ==> r[i] == ToSource(docs[i])
  {
    seq(|docs|, i requires 0 <= i < |docs| => ToSource(docs[i]))
  }

  /** Each source keeps its document's metadata and score and a prefix of
      its text; a text of at most 200 characters is kept whole. */
  lemma SourcesFollowDocs(docs: seq<Doc>, i: int)
    requires 0 <= i < |docs|
    ensures var s := ToSources(docs)[i];
      && s.source == docs[i].source && s.docType == docs[i].docType && s.score == docs[i].score
      && Prefix(docs[i].text, SourceLimit) <= s.text
      && (|docs[i].text| <= SourceLimit ==> s.text == docs[i].text)
  {
  }

  /** Sources of a concatenation are the concatenated sources. */
  lemma ToSourcesAppend(a: seq<Doc>, b: seq<Doc>)
    ensures ToSources(a + b) == ToSources(a) + ToSources(b)
  {
    assert forall i :: 0 <= i < |a + b| ==> ToSources(a + b)[i] == (ToSources(a) + ToSources(b))[i];
  }

  // ---------------------------------------------------------------------
  // Results

  /** The dictionary `query_rag` returns: `sources` is `None` when the key
      is absent. */
  datatype RagResult = RagResult(answer: string, sources: Option<seq<Source>>, modelUsed: Option<string>)

  const NotFoundAnswer: string :=
    "I couldn't find relevant information in the tax documents to answer your question. Please try rephrasing or ask about Nigerian tax policies, PAYE calculations, or tax regulations."

  const ErrorPrefix: string := "An error occurred while processing your query: "

  /** The result for an empty retrieval. */
  const NotFound: RagResult := RagResult(NotFoundAnswer, Some([]), None)

  /** The result for an exception `e`: its text after a fixed prefix. */
  function ErrorResult(v: Variant, e: Error): (r: RagResult)
    ensures r.answer == ErrorPrefix + ErrorText(v, e)
    ensures r.sources == Some([]) && r.modelUsed == None
  {
    RagResult(ErrorPrefix + ErrorText(v, e), Some([]), None)
  }

  // ---------------------------------------------------------------------
  // generate_response

  datatype Generated = Generated(answer: string, model: Option<string>)

  /** A generation result and the manager after it (the manager object is
      mutated even when the call then raises). */
  datatype Generation = Generation(result: Result<Generated, Error>, manager: Manager)

  /** The manager `generate_response` creates when none is given: the
      modular code overrides the temperature and token limit; the monolithic
      constructor ignores its arguments and keeps the configured ones. */
  function FreshManager(v: Variant, env: Env, temperature: real, maxTokens: int): (m: Manager)
    ensures Valid(m) && m.current == None && m.active == None
    ensures m.settings == if v == Modular then Settings(temperature, maxTokens) else env.settings
  {
    if v == Modular then Manager(Settings(temperature, maxTokens), None, None) else NewManager(env)
  }

  /** `generate_response` on a given manager: `get_llm(force_fallback)`,
      one raw call, then `response.content` (or `str(response)` when the
      reply has none) and the active model. Provider errors propagate. */
  function GenerateResponse(v: Variant, m: Manager, up: Backend -> bool, llm: Call,
                            prompt: string, force: bool): (g: Generation)
    ensures GetLlm(m, up, force).Failure? ==> g == Generation(Failure(InitFailed), m)
    ensures GetLlm(m, up, force).Success? ==>
      var got := GetLlm(m, up, force).value;
      && g.manager == got.manager
      && (g.result.Failure? <==> llm(prompt, got.llm).Failure?)
      && (g.result.Failure? ==> g.result.error == CallFailed(llm(prompt, got.llm).error))
      && (g.result.Success? ==>
            var reply := llm(prompt, got.llm).value;
            g.result.value.answer == reply.content.GetOr(reply.repr))
    ensures Valid(m) && g.result.Success? ==>
      g.result.value.model.Some? && g.result.value.model == ActiveModel(v, g.manager)
  {
    match GetLlm(m, up, force)
    case Failure(e) => Generation(Failure(e), m)
    case Success(got) =>
      match llm(prompt, got.llm)
      case Failure(msg) => Generation(Failure(CallFailed(msg)), got.manager)
      case Success(reply) =>
        Generation(Success(Generated(reply.content.GetOr(reply.repr), ActiveModel(v, got.manager))), got.manager)
  }

  /** The monolithic `generate_response` ignores the temperature and token
      limit it is given when it creates the manager. */
  lemma LegacyIgnoresSettings(env: Env, t1: real, n1: int, t2: real, n2: int)
    ensures FreshManager(Legacy, env, t1, n1) == FreshManager(Legacy, env, t2, n2)
  {
  }

  // ---------------------------------------------------------------------
  // query_rag

  /** The part of `query_rag` after retrieval: the fixed answer for no
      documents, otherwise a generation whose exceptions become the error
      result, with the sources attached only when requested. */
  function Respond(v: Variant, docs: seq<Doc>, prompt: string, m: Manager, up: Backend -> bool,
                   llm: Call, force: bool, returnSources: bool): (r: (RagResult, Manager))
    ensures docs == [] ==> r == (NotFound, m)
    ensures docs != [] ==> r.1 == GenerateResponse(v, m, up, llm, prompt, force).manager
    ensures docs != [] ==>
      var g := GenerateResponse(v, m, up, llm, prompt, force).result;
      && (g.Failure? ==> r.0 == ErrorResult(v, g.error))
      && (g.Success? ==>
            && r.0.answer == g.value.answer && r.0.modelUsed == g.value.model
            && (r.0.sources.Some? <==> returnSources)
            && (returnSources ==> r.0.sources.value == ToSources(docs)))
  {
    if docs == [] then (NotFound, m)
    else
      var g := GenerateResponse(v, m, up, llm, prompt, force);
      match g.result
      case Failure(e) => (ErrorResult(v, e), g.manager)
      case Success(gen) =>
        (RagResult(gen.answer, if returnSources then Some(ToSources(docs)) else None, gen.model), g.manager)
  }

  /** The arguments of `query_rag`; a caller-supplied manager is not part
      of them (no caller in the agent passes one). */
  datatype RagRequest = RagRequest(
    query: string,
    collectionType: string,
    topK: int,
    forceFallback: bool,
    returnSources: bool,
    temperature: real,
    maxTokens: int,
    taxCollection: string,
    payeCollection: string,
    chatHistory: string)

  /** The defaults of `query_rag` for a query. */
  function DefaultRequest(query: string): RagRequest {
    RagRequest(query, "both", 3, false, false, 0.7, 1024, DefaultTaxCollection, DefaultPayeCollection, " ")
  }

  /** The documents `query_rag` retrieves for a request. */
  function Retrieved(req: RagRequest, store: Store): seq<Doc> {
    RetrieveContext(store, req.query, req.collectionType, req.topK, req.taxCollection, req.payeCollection)
  }

  /** The prompt `query_rag` builds: the modular layout with language
      detection, or the monolithic one. */
  function RagPrompt(v: Variant, req: RagRequest, docs: seq<Doc>): (p: string)
    ensures Contains(p, req.query) && Contains(p, Formatter.FormatContext(docs))
    ensures v == Modular ==> Contains(p, Formatter.LanguageInstruction(req.query))
  {
    var context := Formatter.FormatContext(docs);
    if v == Modular then Formatter.CreatePrompt(req.query, context, req.chatHistory)
    else Formatter.LegacyCreatePrompt(req.query, context, req.chatHistory)
  }

  /** `query_rag` (modular `src/tools/rag.py` or monolithic `src/rag.py`)
      with a fresh manager. It never raises. */
  function QueryRag(v: Variant, req: RagRequest, store: Store, env: Env, llm: Call): (r: RagResult)
    ensures Retrieved(req, store) == [] ==> r == NotFound
    ensures var docs := Retrieved(req, store);
      var g := GenerateResponse(v, FreshManager(v, env, req.temperature, req.maxTokens), env.up, llm,
                                RagPrompt(v, req, docs), req.forceFallback).result;
      docs != [] ==>
        && (g.Failure? ==> r == ErrorResult(v, g.error))
        && (g.Success? ==>
              && r.answer == g.value.answer && r.modelUsed == g.value.model && r.modelUsed.Some?
              && (r.sources.Some? <==> req.returnSources)
              && (req.returnSources ==> r.sources.value == ToSources(docs)))
  {
    var docs := Retrieved(req, store);
    var m := FreshManager(v, env, req.temperature, req.maxTokens);
    Respond(v, docs, RagPrompt(v, req, docs), m, env.up, llm, req.forceFallback, req.returnSources).0
  }

  /** A result names no model exactly when it is degraded: nothing was
      retrieved, or the generation raised. Degraded results always carry
      an empty sources list. */
  lemma ModelAbsentIffDegraded(v: Variant, req: RagRequest, store: Store, env: Env, llm: Call)
    ensures var r := QueryRag(v, req, store, env, llm);
      var docs := Retrieved(req, store);
      var g := GenerateResponse(v, FreshManager(v, env, req.temperature, req.maxTokens), env.up, llm,
                                RagPrompt(v, req, docs), req.forceFallback).result;
      && (r.modelUsed.None? <==> docs == [] || g.Failure?)
      && (r.modelUsed.None? ==> r.sources == Some([]))
  {
  }

  /** The manager `generate_response` creates, as written: the modular
      constructor raises before the temperature and token limit are set. */
  function FreshManagerAsWritten(v: Variant, env: Env, temperature: real, maxTokens: int): (r: Result<Manager, Error>)
    ensures r.Failure? <==> v == Modular
    ensures r.Failure? ==> r.error == MissingSetting("COHERE_MODEL")
    ensures r.Success? ==> r.value == FreshManager(v, env, temperature, maxTokens)
  {
    ModularConstructorRaises(env);
    match ConstructAsWritten(v, env)
    case Failure(e) => Failure(e)
    case Success(_) => Success(FreshManager(v, env, temperature, maxTokens))
  }

  /** `query_rag` as written: the manager is created only after a
      non-empty retrieval, inside the `try`. */
  function QueryRagAsWritten(v: Variant, req: RagRequest, store: Store, env: Env, llm: Call): (r: RagResult)
    ensures Retrieved(req, store) == [] ==> r == NotFound
    ensures v == Legacy ==> r == QueryRag(v, req, store, env, llm)
    ensures v == Modular && Retrieved(req, store) != [] ==> r == ErrorResult(Modular, MissingSetting("COHERE_MODEL"))
  {
    var docs := Retrieved(req, store);
    if docs == [] then NotFound
    else
      match FreshManagerAsWritten(v, env, req.temperature, req.maxTokens)
      case Failure(e) => ErrorResult(v, e)
      case Success(m) => Respond(v, docs, RagPrompt(v, req, docs), m, env.up, llm, req.forceFallback, req.returnSources).0
  }

  /** As written, the modular `query_rag` never names a model and never
      returns sources, whatever the backends would answer. */
  lemma ModularQueryNeverAnswers(req: RagRequest, store: Store, env: Env, llm: Call)
    ensures var r := QueryRagAsWritten(Modular, req, store, env, llm);
      r.modelUsed == None && r.sources == Some([])
  {
  }

  // ---------------------------------------------------------------------
  // RAGPipeline (monolithic)

  /** A `RAGPipeline` instance: collection names, the default k and the one
      manager every query shares. */
  datatype Pipeline = Pipeline(taxCollection: string, payeCollection: string, topK: int, manager: Manager)

  /** `RAGPipeline(...)`: the manager comes from the ignored-argument
      constructor, so nothing is cached yet. */
  function NewPipeline(taxCollection: string, payeCollection: string, topK: int, env: Env): (p: Pipeline)
    ensures p.manager.current == None && Valid(p.manager)
  {
    Pipeline(taxCollection, payeCollection, topK, NewManager(env))
  }

  /** `RAGPipeline.retrieve_context` with `k = top_k or self.top_k`. */
  function PipelineRetrieve(p: Pipeline, store: Store, query: string, collectionType: string,
                            topK: Option<int>): seq<Doc> {
    RetrieveContext(store, query, collectionType, EffectiveK(topK, p.topK), p.taxCollection, p.payeCollection)
  }

  /** `RAGPipeline.query`: the history-free prompt and the shared manager,
      which keeps whatever client the call initialised. */
  function PipelineQuery(p: Pipeline, store: Store, up: Backend -> bool, llm: Call, query: string,
                         collectionType: string, topK: Option<int>, force: bool,
                         returnSources: bool): (r: (RagResult, Pipeline))
    ensures r.1 == p.(manager := r.1.manager)
    ensures PipelineRetrieve(p, store, query, collectionType, topK) == [] ==> r == (NotFound, p)
    ensures Valid(p.manager) ==> Valid(r.1.manager)
    // With documents: an initialisation failure leaves the pipeline as it
    // was and gives the error result.
    ensures var docs := PipelineRetrieve(p, store, query, collectionType, topK);
      docs != [] && GetLlm(p.manager, up, force).Failure? ==> r == (ErrorResult(Legacy, InitFailed), p)
    // Otherwise the call runs on the client `get_llm` returned, which stays
    // cached: a raising call gives the error result, a reply gives its
    // content (or `str(reply)`), the active model, and the sources exactly
    // when requested.
    ensures var docs := PipelineRetrieve(p, store, query, collectionType, topK);
      var prompt := Formatter.PipelinePrompt(query, Formatter.FormatContext(docs));
      docs != [] && GetLlm(p.manager, up, force).Success? ==>
        var got := GetLlm(p.manager, up, force).value;
        && r.1.manager == got.manager
        && (llm(prompt, got.llm).Failure? ==> r.0 == ErrorResult(Legacy, CallFailed(llm(prompt, got.llm).error)))
        && (llm(prompt, got.llm).Success? ==>
              var reply := llm(prompt, got.llm).value;
              && r.0.answer == reply.content.GetOr(reply.repr)
              && r.0.modelUsed == ActiveModel(Legacy, got.manager)
              && (Valid(p.manager) ==> r.0.modelUsed == Some(Name(Legacy, got.llm)))
              && (r.0.sources.Some? <==> returnSources)
              && (returnSources ==> r.0.sources.value == ToSources(docs)))
  {
    var docs := PipelineRetrieve(p, store, query, collectionType, topK);
    var prompt := Formatter.PipelinePrompt(query, Formatter.FormatContext(docs));
    var (result, m) := Respond(Legacy, docs, prompt, p.manager, up, llm, force, returnSources);
    (result, p.(manager := m))
  }

  /** A zero `top_k` retrieves with the pipeline's default k. */
  lemma ZeroTopKUsesDefault(p: Pipeline, store: Store, query: string, collectionType: string)
    ensures PipelineRetrieve(p, store, query, collectionType, Some(0))
         == PipelineRetrieve(p, store, query, collectionType, None)
  {
  }

  /** The first query through a fresh `RAGPipeline` is monolithic
      `query_rag` with the matching request, up to the prompt: both
      retrieve the same documents, and when the backends answer whatever
      the prompt, both return the same result. */
  lemma FreshPipelineIsQueryRag(env: Env, store: Store, llm: Call, taxCollection: string,
                                payeCollection: string, defaultK: int, query: string,
                                collectionType: string, topK: Option<int>, force: bool,
                                returnSources: bool, temperature: real, maxTokens: int, history: string)
    ensures var p := NewPipeline(taxCollection, payeCollection, defaultK, env);
      var req := RagRequest(query, collectionType, EffectiveK(topK, defaultK), force, returnSources,
                            temperature, maxTokens, taxCollection, payeCollection, history);
      PipelineRetrieve(p, store, query, collectionType, topK) == Retrieved(req, store)
    ensures var p := NewPipeline(taxCollection, payeCollection, defaultK, env);
      var req := RagRequest(query, collectionType, EffectiveK(topK, defaultK), force, returnSources,
                            temperature, maxTokens, taxCollection, payeCollection, history);
      (forall p1: string, p2: string, b: Backend :: llm(p1, b) == llm(p2, b)) ==>
        PipelineQuery(p, store, env.up, llm, query, collectionType, topK, force, returnSources).0
        == QueryRag(Legacy, req, store, env, llm)
  {
    var p := NewPipeline(taxCollection, payeCollection, defaultK, env);
    var req := RagRequest(query, collectionType, EffectiveK(topK, defaultK), force, returnSources,
                          temperature, maxTokens, taxCollection, payeCollection, history);
    var docs := Retrieved(req, store);
    assert PipelineRetrieve(p, store, query, collectionType, topK) == docs;
    if forall p1: string, p2: string, b: Backend :: llm(p1, b) == llm(p2, b) {
      var prompt1 := Formatter.PipelinePrompt(query, Formatter.FormatContext(docs));
      var prompt2 := RagPrompt(Legacy, req, docs);
      assert FreshManager(Legacy, env, temperature, maxTokens) == p.manager;
      PromptIndependent(Legacy, docs, p.manager, env.up, llm, prompt1, prompt2, force, returnSources);
    }
  }

  /** A response depends on the prompt only through the backend call. */
  lemma PromptIndependent(v: Variant, docs: seq<Doc>, m: Manager, up: Backend -> bool, llm: Call,
                          prompt1: string, prompt2: string, force: bool, returnSources: bool)
    requires forall b: Backend :: llm(prompt1, b) == llm(prompt2, b)
    ensures Respond(v, docs, prompt1, m, up, llm, force, returnSources)
         == Respond(v, docs, prompt2, m, up, llm, force, returnSources)
  {
    assert GenerateResponse(v, m, up, llm, prompt1, force) == GenerateResponse(v, m, up, llm, prompt2, force);
  }

  /** Once a query has cached a client, later unforced queries reuse it:
      the pipeline's manager does not initialise again. */
  lemma PipelineKeepsClient(p: Pipeline, store: Store, up: Backend -> bool, llm: Call, query: string,
                            collectionType: string, topK: Option<int>, returnSources: bool)
    requires p.manager.current.Some?
    ensures PipelineQuery(p, store, up, llm, query, collectionType, topK, false, returnSources).1 == p
  {
  }

  /** A run of queries through a step that threads a state, as a recursive
      reference: each query sees the state the previous ones left. */
  function RunBatch<S, R>(step: (S, string) -> (R, S), s: S, queries: seq<string>): (r: (seq<R>, S))
    ensures |r.0| == |queries|
    decreases |queries|
  {
    if queries == [] then ([], s)
    else
      var prev := RunBatch(step, s, queries[..|queries| - 1]);
      var next := step(prev.1, queries[|queries| - 1]);
      (prev.0 + [next.0], next.1)
  }

  lemma RunBatchStep<S, R>(step: (S, string) -> (R, S), s: S, queries: seq<string>, i: nat)
    requires i < |queries|
    ensures var prev := RunBatch(step, s, queries[..i]);
      var next := step(prev.1, queries[i]);
      RunBatch(step, s, queries[..i + 1]) == (prev.0 + [next.0], next.1)
  {
    assert queries[..i + 1][..i] == queries[..i];
  }

  /** The `i`-th result of a run is its query stepped from the state the
      first `i` queries left behind: results come in input order. */
  lemma {:induction false} RunBatchInOrder<S, R>(step: (S, string) -> (R, S), s: S, queries: seq<string>, i: nat)
    requires i < |queries|
    ensures RunBatch(step, s, queries).0[i] == step(RunBatch(step, s, queries[..i]).1, queries[i]).0
    decreases |queries|
  {
    var n := |queries|;
    var init := queries[..n - 1];
    if i < n - 1 {
      RunBatchInOrder(step, s, init, i);
      assert init[..i] == queries[..i];
      assert init[i] == queries[i];
    } else {
      assert init == queries[..i];
    }
  }

  /** One query of `batch_query`: `query` with the default flags. */
  function BatchStep(store: Store, up: Backend -> bool, llm: Call, collectionType: string,
                     topK: Option<int>): (Pipeline, string) -> (RagResult, Pipeline) {
    (p: Pipeline, query: string) => PipelineQuery(p, store, up, llm, query, collectionType, topK, false, false)
  }

  /** A batch step changes only the pipeline's manager. */
  lemma BatchStepFrame(store: Store, up: Backend -> bool, llm: Call, collectionType: string,
                       topK: Option<int>, p: Pipeline, query: string)
    ensures var next := BatchStep(store, up, llm, collectionType, topK)(p, query);
      next.1 == p.(manager := next.1.manager)
  {
  }

  /** `RAGPipeline.batch_query`: one `query` per input, in order, each on
      the pipeline the previous ones left. */
  method BatchQuery(p: Pipeline, store: Store, up: Backend -> bool, llm: Call, queries: seq<string>,
                    collectionType: string, topK: Option<int>)
    returns (results: seq<RagResult>, after: Pipeline)
    ensures |results| == |queries|
    ensures (results, after) == RunBatch(BatchStep(store, up, llm, collectionType, topK), p, queries)
    ensures after == p.(manager := after.manager)
  {
    var step := BatchStep(store, up, llm, collectionType, topK);
    results := [];
    after := p;
    var i := 0;
    while i < |queries|
      invariant 0 <= i <= |queries|
      invariant (results, after) == RunBatch(step, p, queries[..i])
      invariant after == p.(manager := after.manager)
    {
      RunBatchStep(step, p, queries, i);
      var next := step(after, queries[i]);
      BatchStepFrame(store, up, llm, collectionType, topK, after, queries[i]);
      results := results + [next.0];
      after := next.1;
      i := i + 1;
    }
    assert queries[..|queries|] == queries;
  }
}
