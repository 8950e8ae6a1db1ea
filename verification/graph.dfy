/** The compiled state graph: its nodes, its static edges, how each node's
    returned state is merged (the `add_messages` reducer on `messages`,
    plain overwrite elsewhere), and a run from the entry point to the end. */
module Graph {
  import opened Wrappers
  import opened Text
  import opened Llm
  import opened ChatHistory
  import opened Rag
  import Retrieval
  import opened AgentState
  import opened Router
  import opened SubAgents
  import opened Responder

  datatype Node = Supervisor | TaxAgent | PayeAgent | CombinedAgent | FinancialAgent | ResponderNode | End

  /** The path map of the supervisor's conditional edges; the modular graph
      also registers the financial agent. */
  function SupervisorTargets(v: Variant): (t: map<string, Node>)
    ensures "tax_agent" in t && "paye_agent" in t && "combined_agent" in t
    ensures "financial_agent" in t <==> v == Modular
  {
    var base := map["tax_agent" := TaxAgent, "paye_agent" := PayeAgent, "combined_agent" := CombinedAgent];
    if v == Modular then base["financial_agent" := FinancialAgent] else base
  }

  /** The static edges: the supervisor reaches each registered target, the
      two knowledge agents lead to the responder, and the remaining nodes
      end the run. */
  predicate Edge(v: Variant, a: Node, b: Node) {
    match a
    case Supervisor => b in SupervisorTargets(v).Values
    case TaxAgent => b == ResponderNode
    case PayeAgent => b == ResponderNode
    case CombinedAgent => b == End
    case FinancialAgent => b == End
    case ResponderNode => b == End
    case End => false
  }

  /** The node taken after `n` has produced state `s`. */
  function Next(v: Variant, n: Node, s: AgentState): (r: Node)
    requires n != End
    ensures Edge(v, n, r)
  {
    match n
    case Supervisor => SupervisorTargets(v)[DecideNextStep(s.route)]
    case TaxAgent => ResponderNode
    case PayeAgent => ResponderNode
    case CombinedAgent => End
    case FinancialAgent => End
    case ResponderNode => End
  }

  /** Distance to the end, for termination. */
  function Rank(n: Node): nat {
    match n
    case Supervisor => 3
    case TaxAgent => 2
    case PayeAgent => 2
    case CombinedAgent => 1
    case FinancialAgent => 1
    case ResponderNode => 1
    case End => 0
  }

  /** Merges a node's messages into the state as `add_messages` does: the
      nodes that assign a fresh two-message turn append it; the others
      return the existing messages, which the reducer leaves as they are. */
  function AppendTurn(s: AgentState, out: AgentState): (r: AgentState)
    ensures r == out.(messages := s.messages + out.messages)
  {
    out.(messages := s.messages + out.messages)
  }

  /** One node's update, merged into the state. */
  function Apply(v: Variant, n: Node, s: AgentState, w: World): AgentState {
    match n
    case Supervisor => RouteQuery(v, s, w)
    case TaxAgent => TaxPolicyAgent(v, s, w)
    case PayeAgent => SubAgents.PayeAgent(v, s, w)
    case CombinedAgent => AppendTurn(s, SubAgents.CombinedAgent(v, s, w))
    case FinancialAgent => AppendTurn(s, FinancialAdviceAgent(s, w).0)
    case ResponderNode => AppendTurn(s, ResponseGenerator(v, s, w))
    case End => s
  }

  /** The update function of every node, as the graph sees it. */
  function Step(v: Variant, w: World): (Node, AgentState) -> AgentState {
    (n: Node, s: AgentState) => Apply(v, n, s, w)
  }

  /** The nodes a run visits, in order, and the state it ends with. */
  datatype Run = Run(visits: seq<Node>, final: AgentState)

  /** Runs the graph from node `n`, with `f` as the node updates. */
  function RunFrom(v: Variant, f: (Node, AgentState) -> AgentState, n: Node, s: AgentState): (r: Run)
    ensures n == End <==> r.visits == []
    ensures n != End ==> r.visits[0] == n
    decreases Rank(n)
  {
    if n == End then Run([], s)
    else
      var s1 := f(n, s);
      var rest := RunFrom(v, f, Next(v, n, s1), s1);
      Run([n] + rest.visits, rest.final)
  }

  /** `ainvoke` from the entry point. */
  function Invoke(v: Variant, s: AgentState, w: World): Run {
    RunFrom(v, Step(v, w), Supervisor, s)
  }

  /** Whatever the node updates, a run from the entry point is the
      supervisor, the node its edge picks, and the responder after a
      knowledge agent. */
  lemma RunShape(v: Variant, f: (Node, AgentState) -> AgentState, s: AgentState)
    ensures var s1 := f(Supervisor, s);
      var n := Next(v, Supervisor, s1);
      RunFrom(v, f, Supervisor, s) ==
        if n == TaxAgent || n == PayeAgent then Run([Supervisor, n, ResponderNode], f(ResponderNode, f(n, s1)))
        else Run([Supervisor, n], f(n, s1))
  {
    var s1 := f(Supervisor, s);
    var n := Next(v, Supervisor, s1);
    var s2 := f(n, s1);
    if n == TaxAgent || n == PayeAgent {
      var s3 := f(ResponderNode, s2);
      assert RunFrom(v, f, ResponderNode, s2) == Run([ResponderNode], s3);
      assert RunFrom(v, f, n, s1) == Run([n, ResponderNode], s3);
    } else {
      assert n == CombinedAgent || n == FinancialAgent;
      assert RunFrom(v, f, n, s1) == Run([n], s2);
    }
  }

  /** The node the supervisor's edge picks for a route. */
  lemma PickedNode(v: Variant, s1: AgentState)
    ensures var n := Next(v, Supervisor, s1);
      n == if s1.route == "tax" then TaxAgent else if s1.route == "paye" then PayeAgent else CombinedAgent
  {
  }

  /** The path a run takes is decided by the route alone: the tax and PAYE
      routes go through their agent and the responder, every other route
      (including "financial") through the combined agent only. */
  lemma VisitsByRoute(v: Variant, s: AgentState, w: World)
    ensures var route := RouteQuery(v, s, w).route;
      Invoke(v, s, w).visits ==
        if route == "tax" then [Supervisor, TaxAgent, ResponderNode]
        else if route == "paye" then [Supervisor, PayeAgent, ResponderNode]
        else [Supervisor, CombinedAgent]
  {
    RunShape(v, Step(v, w), s);
    assert Step(v, w)(Supervisor, s) == RouteQuery(v, s, w);
    PickedNode(v, RouteQuery(v, s, w));
  }

  /** Every run, whatever the node updates, follows the static edges,
      visits at most three nodes, ends at a node whose edge leads to the
      end, and never reaches the financial agent. */
  lemma RunFollowsEdges(v: Variant, f: (Node, AgentState) -> AgentState, s: AgentState)
    ensures var vs := RunFrom(v, f, Supervisor, s).visits;
      && 2 <= |vs| <= 3 && vs[0] == Supervisor
      && (forall i :: 0 <= i < |vs| - 1 ==> Edge(v, vs[i], vs[i + 1]))
      && Edge(v, vs[|vs| - 1], End)
      && FinancialAgent !in vs
  {
    RunShape(v, f, s);
    var s1 := f(Supervisor, s);
    PickedNode(v, s1);
    var n := Next(v, Supervisor, s1);
    assert Edge(v, Supervisor, n);
  }

  /** How each node treats the conversation: the supervisor and the
      knowledge agents keep it; the answering nodes append one turn. No
      node changes the query. */
  lemma SupervisorKeepsMessages(v: Variant, s: AgentState, w: World)
    ensures var r := Apply(v, Supervisor, s, w); r.messages == s.messages && r.query == s.query
  {
  }

  lemma KnowledgeKeepsMessages(v: Variant, n: Node, s: AgentState, w: World)
    requires n == TaxAgent || n == PayeAgent
    ensures var r := Apply(v, n, s, w); r.messages == s.messages && r.query == s.query && r.route == s.route
  {
    if n == TaxAgent {
      assert Apply(v, n, s, w) == TaxPolicyAgent(v, s, w);
    } else {
      assert Apply(v, n, s, w) == SubAgents.PayeAgent(v, s, w);
    }
  }

  lemma AnsweringAppendsTurn(v: Variant, n: Node, s: AgentState, w: World)
    requires n == CombinedAgent || n == FinancialAgent || n == ResponderNode
    ensures var r := Apply(v, n, s, w);
      r.messages == s.messages + Turn(s.query, r.finalAnswer) && r.query == s.query && r.route == s.route
  {
    if n == CombinedAgent {
      assert Apply(v, n, s, w) == AppendTurn(s, SubAgents.CombinedAgent(v, s, w));
    } else if n == FinancialAgent {
      assert Apply(v, n, s, w) == AppendTurn(s, FinancialAdviceAgent(s, w).0);
    } else {
      assert Apply(v, n, s, w) == AppendTurn(s, ResponseGenerator(v, s, w));
    }
  }

  /** A run appends exactly one turn to the conversation, the query and the
      final answer; it leaves the query as it was and ends with the route
      the supervisor chose. */
  lemma RunAppendsTurn(v: Variant, s: AgentState, w: World)
    ensures var f := Invoke(v, s, w).final;
      && f.messages == s.messages + Turn(s.query, f.finalAnswer) && f.query == s.query
      && f.route == RouteQuery(v, s, w).route
  {
    var g := Step(v, w);
    RunShape(v, g, s);
    var s1 := g(Supervisor, s);
    assert s1 == RouteQuery(v, s, w);
    SupervisorKeepsMessages(v, s, w);
    var n := Next(v, Supervisor, s1);
    PickedNode(v, s1);
    if n == TaxAgent || n == PayeAgent {
      KnowledgeKeepsMessages(v, n, s1, w);
      AnsweringAppendsTurn(v, ResponderNode, g(n, s1), w);
    } else {
      AnsweringAppendsTurn(v, n, s1, w);
    }
  }

  /** On the tax route, starting from empty answers, the final answer is the
      tax agent's knowledge answer: with the PAYE answer empty the responder
      never synthesises. */
  lemma TaxRouteAnswersFromTaxAgent(v: Variant, s: AgentState, w: World)
    requires s.payeAnswer == "" && s.finalAnswer == ""
    requires RouteQuery(v, s, w).route == "tax"
    ensures var s1 := RouteQuery(v, s, w);
      Invoke(v, s, w).final.finalAnswer == QueryRag(v, TaxRequest(v, s1, w), w.store, w.env, w.llm).answer
  {
    var s1 := RouteQuery(v, s, w);
    TaxRunFinal(v, s, w);
    var s2 := Apply(v, TaxAgent, s1, w);
    assert s2 == TaxPolicyAgent(v, s1, w);
    ResponderPassesTax(v, s2, w);
  }

  /** On the tax route a run ends with the responder applied after the tax
      agent. */
  lemma TaxRunFinal(v: Variant, s: AgentState, w: World)
    requires RouteQuery(v, s, w).route == "tax"
    ensures Invoke(v, s, w).final == Apply(v, ResponderNode, Apply(v, TaxAgent, RouteQuery(v, s, w), w), w)
  {
    RunShape(v, Step(v, w), s);
    assert Step(v, w)(Supervisor, s) == RouteQuery(v, s, w);
    PickedNode(v, RouteQuery(v, s, w));
  }

  /** With no PAYE answer and no final answer yet, the responder's final
      answer is the tax answer (empty when that is empty too). */
  lemma ResponderPassesTax(v: Variant, s: AgentState, w: World)
    requires s.payeAnswer == "" && s.finalAnswer == ""
    ensures Apply(v, ResponderNode, s, w).finalAnswer == s.taxAnswer
  {
    assert Apply(v, ResponderNode, s, w) == AppendTurn(s, ResponseGenerator(v, s, w));
    if s.taxAnswer != "" {
      assert Responder.Respond(v, s, w).0 == s.taxAnswer;
    } else {
      assert Responder.Respond(v, s, w).0 == s.finalAnswer;
    }
  }

  /** With no backend up every knowledge query is degraded: nothing found,
      or the initialisation error, with no model and no sources. */
  lemma NoBackendQueryDegraded(v: Variant, req: RagRequest, store: Retrieval.Store, env: Env, llm: Call)
    requires !env.up(Primary) && !env.up(Secondary)
    ensures var r := QueryRag(v, req, store, env, llm);
      (r == NotFound || r == ErrorResult(v, InitFailed)) && r.modelUsed == None
  {
    ModelAbsentIffDegraded(v, req, store, env, llm);
  }

  /** Without a backend, the route falls back to "both" and the answer is
      the combined agent's degraded one. */
  lemma NoBackendDegrades(v: Variant, s: AgentState, w: World)
    requires !w.env.up(Primary) && !w.env.up(Secondary)
    ensures var f := Invoke(v, s, w).final;
      && Invoke(v, s, w).visits == [Supervisor, CombinedAgent]
      && (f.finalAnswer == NotFoundAnswer || f.finalAnswer == ErrorResult(v, InitFailed).answer)
      && f.modelUsed == None && f.sources == []
  {
    NoBackendRoutesBoth(v, s, w);
    var g := Step(v, w);
    RunShape(v, g, s);
    var s1 := RouteQuery(v, s, w);
    assert g(Supervisor, s) == s1;
    PickedNode(v, s1);
    NoBackendQueryDegraded(v, CombinedRequest(v, s1, w), w.store, w.env, w.llm);
    assert g(CombinedAgent, s1) == AppendTurn(s1, SubAgents.CombinedAgent(v, s1, w));
  }

  /** `decide_after_agents` is never wired in: after the tax agent it would
      say "end" whenever the PAYE answer is empty, yet the graph always
      continues to the responder. */
  lemma AfterAgentsNotWired(v: Variant, s: AgentState, w: World)
    requires s.payeAnswer == ""
    ensures var s1 := Apply(v, TaxAgent, s, w);
      DecideAfterAgents(s1) == "end" && Next(v, TaxAgent, s1) == ResponderNode
  {
  }
}
