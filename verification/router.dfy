/** The supervisor node: it asks the LLM for a route, normalises the reply
    and accepts it only from a closed set, defaulting to "both". */
module Router {
  import opened Wrappers
  import opened Text
  import opened Llm
  import opened ChatHistory
  import opened AgentState

  /** The routes each agent accepts. */
  function Routes(v: Variant): seq<string> {
    if v == Modular then ["tax", "paye", "both", "financial"] else ["tax", "paye", "both"]
  }

  /** The route used when the reply is invalid or the call raised. */
  const DefaultRoute: string := "both"

  /** `response.content.strip().lower()`. */
  function Normalize(reply: string): string {
    Lower(Strip(reply))
  }

  /** The stored route for a reply (`None` when the call raised or the
      reply had no content): the normalised reply if it is a valid route,
      "both" otherwise. */
  function ChooseRoute(v: Variant, reply: Option<string>): (r: string)
    ensures r in Routes(v)
    ensures reply.Some? && Normalize(reply.value) in Routes(v) ==> r == Normalize(reply.value)
    ensures reply.None? || Normalize(reply.value) !in Routes(v) ==> r == DefaultRoute
  {
    match reply
    case None => DefaultRoute
    case Some(text) => if Normalize(text) in Routes(v) then Normalize(text) else DefaultRoute
  }

  /** A reply that differs from a route only in case and surrounding
      whitespace selects that route; the valid routes are fixed points. */
  lemma RouteReplyAccepted(v: Variant, route: string, pre: string, post: string)
    requires route in Routes(v) && AllSpace(pre) && AllSpace(post)
    ensures ChooseRoute(v, Some(pre + route + post)) == route
  {
    RouteWord(v, route);
    StripOfPadded(pre, route, post);
    assert Normalize(pre + route + post) == route;
  }

  /** Every route is a lower-case word. */
  lemma RouteWord(v: Variant, route: string)
    requires route in Routes(v)
    ensures |route| > 0 && !IsSpace(route[0]) && !IsSpace(route[|route| - 1]) && Lower(route) == route
  {
    if route == "tax" { LowerOfLowercase(route); }
    else if route == "paye" { LowerOfLowercase(route); }
    else if route == "both" { LowerOfLowercase(route); }
    else { LowerOfLowercase(route); }
  }

  /** What the modular routing prompt shows when there is no previous route. */
  const FirstMessage: string := "None (first message)"

  /** What the routing prompt says about the previous route: an empty
      route counts as none. */
  function LastRouteText(route: string): string {
    if route != "" then route else FirstMessage
  }

  const ModularRoutingIntro: string :=
    "You are an intelligent routing system for a Nigerian tax and financial chatbot."
  const ModularRoutingRules: string :=
    "AVAILABLE ROUTES:\n- \"paye\"\n- \"tax\"\n- \"financial\"\n- \"both\"\n\nRespond with ONLY ONE WORD: paye, tax, financial, or both\n\nROUTE:"
  const LegacyRoutingIntro: string :=
    "You are a routing assistant for a Nigerian tax chatbot system."
  const LegacyRoutingRules: string :=
    "INSTRUCTIONS:\n- Respond with ONLY one word: \"tax\", \"paye\", or \"both\"\n- If unsure, choose \"both\"\n\nROUTE:"

  /** The routing prompt's pieces: the modular one carries the last four
      messages and the previous route; the monolithic one only the query. */
  function RoutingPieces(v: Variant, s: AgentState): seq<string> {
    if v == Modular then
      [ModularRoutingIntro, "\n\nCONVERSATION HISTORY:\n", RouterHistory(s.messages),
       "\n\nLAST ROUTE USED: ", LastRouteText(s.route), "\n\nCURRENT USER QUERY:\n", s.query,
       "\n\n", ModularRoutingRules]
    else
      [LegacyRoutingIntro, "\n\nUSER QUERY:\n", s.query, "\n\n", LegacyRoutingRules]
  }

  function RoutingPrompt(v: Variant, s: AgentState): (p: string)
    ensures Contains(p, s.query)
    ensures v == Modular ==> Contains(p, RouterHistory(s.messages)) && Contains(p, LastRouteText(s.route))
  {
    var pieces := RoutingPieces(v, s);
    if v == Modular then
      PieceInConcat(pieces, 2);
      PieceInConcat(pieces, 4);
      PieceInConcat(pieces, 6);
      Concat(pieces)
    else
      PieceInConcat(pieces, 2);
      Concat(pieces)
  }

  /** The text of the classifier's reply, `None` where the node's `try`
      catches an exception. */
  function RouterReply(v: Variant, s: AgentState, w: World): Option<string> {
    match AskContent(v, w.env, w.llm, RoutingPrompt(v, s))
    case None => None
    case Some((text, _)) => Some(text)
  }

  /** `route_query`: only the route is written, and it is always valid. */
  function RouteQuery(v: Variant, s: AgentState, w: World): (r: AgentState)
    ensures r == s.(route := r.route)
    ensures r.route in Routes(v)
    ensures r.route == ChooseRoute(v, RouterReply(v, s, w))
  {
    s.(route := ChooseRoute(v, RouterReply(v, s, w)))
  }

  /** With no backend up, the call raises and the route is "both". */
  lemma NoBackendRoutesBoth(v: Variant, s: AgentState, w: World)
    requires !w.env.up(Primary) && !w.env.up(Secondary)
    ensures RouteQuery(v, s, w).route == DefaultRoute
  {
  }

  /** The monolithic agent never stores "financial". */
  lemma LegacyNeverFinancial(s: AgentState, w: World)
    ensures RouteQuery(Legacy, s, w).route != "financial"
  {
  }
}
