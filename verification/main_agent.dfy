/** `main_agent`: obtain the compiled graph, start a run from a reset state
    on the remembered conversation of the thread, and shape the response.
    The checkpointer's store is a map from thread ids to the last saved
    state. */
module MainAgent {
  import opened Wrappers
  import opened Text
  import opened Llm
  import opened ChatHistory
  import opened Rag
  import opened AgentState
  import opened Router
  import opened Lifecycle
  import opened Graph

  /** A saved checkpoint: the state's channel values and its timestamp. */
  datatype Checkpoint = Checkpoint(values: AgentState, ts: string)

  type Memory = map<string, Checkpoint>

  /** The dictionary `main_agent` returns; `sources` is the optional key. */
  datatype AgentResponse = AgentResponse(answer: string, modelUsed: Option<string>, routeUsed: string,
                                         sources: Option<seq<Source>>)

  /** A call's response (or the error it raised), the globals and the
      store it leaves behind. */
  datatype Served = Served(response: Result<AgentResponse, string>, globals: Globals, memory: Memory)

  /** The conversation a run starts from: the thread's saved messages when
      the graph is checkpointed, nothing otherwise. */
  function PriorMessages(checkpointed: bool, memory: Memory, threadId: string): (r: seq<Message>)
    ensures checkpointed && threadId in memory ==> r == memory[threadId].values.messages
    ensures !checkpointed || threadId !in memory ==> r == []
  {
    if checkpointed && threadId in memory then memory[threadId].values.messages else []
  }

  /** The response built from a final state. */
  function Shape(f: AgentState, returnSources: bool): (r: AgentResponse)
    ensures r.answer == f.finalAnswer && r.modelUsed == f.modelUsed && r.routeUsed == f.route
    ensures r.sources.Some? <==> returnSources && f.sources != []
    ensures r.sources.Some? ==> r.sources.value == f.sources
  {
    AgentResponse(f.finalAnswer, f.modelUsed, f.route, if returnSources && f.sources != [] then Some(f.sources) else None)
  }

  /** The state a request starts from. */
  function StartState(v: Variant, checkpointed: bool, memory: Memory, userId: string, query: string,
                      threadId: string): AgentState {
    InitialState(v, userId, query, PriorMessages(checkpointed, memory, threadId))
  }

  /** `main_agent(user_id, query, return_sources, thread_id)`; the monolithic
      one has no user id, which `InitialState` drops. `now` is the
      checkpoint's timestamp. */
  function Ask(v: Variant, g: Globals, db: Db, memory: Memory, w: World, userId: string, query: string,
               returnSources: bool, threadId: string, now: string): (r: Served)
    ensures GetCompiledAgent(g, db).result.Failure? ==>
      r == Served(Failure(GetCompiledAgent(g, db).result.error), GetCompiledAgent(g, db).globals, memory)
    ensures r.globals == GetCompiledAgent(g, db).globals
    ensures GetCompiledAgent(g, db).result.Success? ==>
      var c := GetCompiledAgent(g, db).result.value;
      var f := Graph.Invoke(v, StartState(v, c.checkpointed, memory, userId, query, threadId), w).final;
      && r.response == Success(Shape(f, returnSources))
      && r.memory == if c.checkpointed then memory[threadId := Checkpoint(f, now)] else memory
  {
    var o := GetCompiledAgent(g, db);
    match o.result
    case Failure(e) => Served(Failure(e), o.globals, memory)
    case Success(c) =>
      var f := Graph.Invoke(v, StartState(v, c.checkpointed, memory, userId, query, threadId), w).final;
      Served(Success(Shape(f, returnSources)), o.globals,
             if c.checkpointed then memory[threadId := Checkpoint(f, now)] else memory)
  }

  /** The conversation grows by one turn per answered request: the saved
      thread holds its previous messages, the query and the answer; no other
      thread changes, and without a checkpointer nothing is saved. */
  lemma AskRemembersTurn(v: Variant, g: Globals, db: Db, memory: Memory, w: World, userId: string,
                         query: string, returnSources: bool, threadId: string, now: string)
    requires GetCompiledAgent(g, db).result.Success?
    ensures var r := Ask(v, g, db, memory, w, userId, query, returnSources, threadId, now);
      var c := GetCompiledAgent(g, db).result.value;
      && r.response.Success?
      && (c.checkpointed ==>
            && threadId in r.memory
            && r.memory[threadId].values.messages ==
                 PriorMessages(true, memory, threadId) + Turn(query, r.response.value.answer)
            && (forall k :: k != threadId ==> (k in r.memory <==> k in memory)))
      && (c.checkpointed ==> forall k :: k != threadId && k in memory ==> r.memory[k] == memory[k])
      && (!c.checkpointed ==> r.memory == memory)
  {
    var c := GetCompiledAgent(g, db).result.value;
    var s := StartState(v, c.checkpointed, memory, userId, query, threadId);
    var f := Graph.Invoke(v, s, w).final;
    RunAppendsTurn(v, s, w);
    SaveKeepsOthers(memory, threadId, f, now);
  }

  /** Saving a thread's checkpoint leaves every other thread as it was. */
  lemma SaveKeepsOthers(memory: Memory, threadId: string, f: AgentState, now: string)
    ensures var m := memory[threadId := Checkpoint(f, now)];
      && threadId in m && m[threadId].values == f
      && (forall k :: k != threadId ==> (k in m <==> k in memory))
      && (forall k :: k != threadId && k in memory ==> m[k] == memory[k])
  {
  }

  /** The route reported is always one the agent accepts. */
  lemma AskReportsValidRoute(v: Variant, g: Globals, db: Db, memory: Memory, w: World, userId: string,
                             query: string, returnSources: bool, threadId: string, now: string)
    requires GetCompiledAgent(g, db).result.Success?
    ensures var r := Ask(v, g, db, memory, w, userId, query, returnSources, threadId, now);
      r.response.Success? && r.response.value.routeUsed in Routes(v)
  {
    var c := GetCompiledAgent(g, db).result.value;
    var s := StartState(v, c.checkpointed, memory, userId, query, threadId);
    RunAppendsTurn(v, s, w);
  }

  /** Every request resets the route before the supervisor runs, so the
      modular routing prompt always reports no previous route, even in a
      remembered conversation. */
  lemma RouterNeverSeesLastRoute(memory: Memory, userId: string, query: string, checkpointed: bool,
                                 threadId: string)
    ensures var s := StartState(Modular, checkpointed, memory, userId, query, threadId);
      LastRouteText(s.route) == FirstMessage && Contains(RoutingPrompt(Modular, s), FirstMessage)
  {
  }
}
