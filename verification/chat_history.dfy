/** Conversation messages and their rendering into the "PREVIOUS
    CONVERSATION" text that every prompt of the agent embeds. */
module ChatHistory {
  import opened Text

  /** A LangChain message: `kind` is its `type` ("human", "ai", ...). */
  datatype Message = Message(kind: string, content: string)

  function Human(content: string): Message { Message("human", content) }
  function Ai(content: string): Message { Message("ai", content) }

  /** The pair a node stores for one exchange: the user's query, then the answer. */
  function Turn(query: string, answer: string): seq<Message> {
    [Human(query), Ai(answer)]
  }

  /** What the formatter returns for an empty conversation. */
  const NoConversation: string := "No previous conversation."

  /** Messages rendered by the modular agent (`messages[-10:]`). */
  const ModularWindow: nat := 10
  /** Messages rendered by the monolithic agent (`messages[-6:]`). */
  const LegacyWindow: nat := 6
  /** Messages the router shows the classifier (`messages[-4:]`). */
  const RouterWindow: nat := 4

  /** Python's `s[-n:]` for `n > 0`. */
  function Last<T>(s: seq<T>, n: nat): (r: seq<T>)
    ensures |r| == if |s| <= n then |s| else n
    ensures r == s[|s| - |r|..]
  {
    if |s| <= n then s else s[|s| - n..]
  }

  /** One line of the rendering: "User: " for a human message, "Assistant: "
      for every other kind. */
  function Line(m: Message): (r: string)
    ensures |r| > 0
    ensures m.kind == "human" ==> r == "User: " + m.content
    ensures m.kind != "human" ==> r == "Assistant: " + m.content
  {
    if m.kind == "human" then "User: " + m.content else "Assistant: " + m.content
  }

  function Lines(ms: seq<Message>): (r: seq<string>)
    ensures |r| == |ms|
    ensures forall i :: 0 <= i < |ms| ==> r[i] == Line(ms[i])
  {
    seq(|ms|, i requires 0 <= i < |ms| => Line(ms[i]))
  }

  /** `format_chat_history` with a window of `window` messages: the sentinel
      for an empty list, otherwise one line per message of the last `window`,
      in order, joined by newlines. */
  function FormatHistory(ms: seq<Message>, window: nat): string {
    if ms == [] then NoConversation else Join(Lines(Last(ms, window)), "\n")
  }

  /** The modular agent's `format_chat_history`. */
  function FormatChatHistory(ms: seq<Message>): string {
    FormatHistory(ms, ModularWindow)
  }

  /** The history the router puts in its classification prompt. */
  function RouterHistory(ms: seq<Message>): string {
    if ms != [] then FormatChatHistory(Last(ms, RouterWindow)) else NoConversation
  }

  /** The rendering is the sentinel exactly when there are no messages: a
      non-empty rendering starts with the "U" of "User: " or the "A" of
      "Assistant: ". */
  lemma SentinelIffEmpty(ms: seq<Message>, window: nat)
    requires window > 0
    ensures FormatHistory(ms, window) == NoConversation <==> ms == []
  {
    if ms != [] {
      var lines := Lines(Last(ms, window));
      JoinHead(lines, "\n");
      assert lines[0][0] == 'U' || lines[0][0] == 'A';
      assert NoConversation[0] == 'N';
    }
  }

  /** Only the last `window` messages influence the rendering. */
  lemma OnlyWindowMatters(ms: seq<Message>, window: nat)
    requires window > 0
    ensures FormatHistory(ms, window) == FormatHistory(Last(ms, window), window)
  {
    var l := Last(ms, window);
    if ms != [] {
      assert Last(l, window) == l;
    }
  }

  /** Two conversations that agree on their last `window` messages render
      identically. */
  lemma SameWindowSameRendering(ms: seq<Message>, ns: seq<Message>, window: nat)
    requires window > 0 && Last(ms, window) == Last(ns, window)
    ensures FormatHistory(ms, window) == FormatHistory(ns, window)
  {
    OnlyWindowMatters(ms, window);
    OnlyWindowMatters(ns, window);
    if ms == [] || ns == [] {
      assert Last(ms, window) == [] && Last(ns, window) == [];
    }
  }

  /** While the conversation fits in the window, a new message adds exactly
      one line at the end, after a newline: lines keep message order. */
  lemma AppendAddsLine(ms: seq<Message>, m: Message, window: nat)
    requires ms != [] && |ms| < window
    ensures FormatHistory(ms + [m], window) == FormatHistory(ms, window) + "\n" + Line(m)
  {
    assert Last(ms + [m], window) == ms + [m];
    assert Lines(ms + [m]) == Lines(ms) + [Line(m)];
    JoinSnoc(Lines(ms), Line(m), "\n");
  }

  /** The router shows the classifier at most the last four messages: its
      history is the four-message rendering of the conversation. */
  lemma RouterSeesLastFour(ms: seq<Message>)
    ensures RouterHistory(ms) == FormatHistory(ms, RouterWindow)
  {
    if ms != [] {
      var l := Last(ms, RouterWindow);
      assert Last(l, ModularWindow) == l;
      assert Last(l, RouterWindow) == l;
    }
  }
}
