/** The chat HTTP endpoints: `POST /chat`, which answers through the
    modular agent, and `GET /conversation-history`, which reads a thread's
    saved messages back from the checkpointer. */
module ChatApi {
  import opened Wrappers
  import opened Llm
  import opened ChatHistory
  import opened AgentState
  import opened Lifecycle
  import opened Schema
  import opened MainAgent

  /** An HTTP error response: its status code and detail. */
  datatype HttpError = HttpError(status: int, detail: string)

  const ChatErrorPrefix: string := "An error occurred while processing your request: "
  const HistoryNotFound: string := "Conversation history not found"

  /** Why `/chat` failed: the agent raised, or the response model rejected
      the null thread id (the validation message is not modelled). */
  datatype ChatFailure = AgentRaised(msg: string) | ResponseRejected(error: FieldError)

  /** Every failure of `/chat` becomes a 500 response. */
  function ChatError(f: ChatFailure): (e: HttpError)
    ensures e.status == 500
    ensures f.AgentRaised? ==> e.detail == ChatErrorPrefix + f.msg
  {
    match f
    case AgentRaised(msg) => HttpError(500, ChatErrorPrefix + msg)
    case ResponseRejected(_) => HttpError(500, ChatErrorPrefix)
  }

  datatype ChatServed = ChatServed(response: Result<ChatResponse, ChatFailure>, globals: Globals, memory: Memory)

  /** `chat(request)`: asks the modular agent without sources and maps its
      answer and route into the response. A null thread id gets as far as
      building the response, which requires a string. Two clock readings
      take part: `savedAt`, the checkpoint's timestamp taken while the agent
      runs, and `respondedAt`, the `utcnow()` taken for the response after
      it returns. */
  function Chat(g: Globals, db: Db, memory: Memory, w: World, req: ChatRequest, savedAt: string,
                respondedAt: string): (r: ChatServed)
    ensures GetCompiledAgent(g, db).result.Failure? ==>
      r.response == Failure(AgentRaised(GetCompiledAgent(g, db).result.error)) && r.memory == memory
    ensures r.globals == GetCompiledAgent(g, db).globals
    ensures GetCompiledAgent(g, db).result.Success? && req.threadId.None? ==>
      r.response == Failure(ResponseRejected(NotAString("thread_id"))) && r.memory == memory
    ensures GetCompiledAgent(g, db).result.Success? && req.threadId.Some? ==>
      var a := Ask(Modular, g, db, memory, w, req.userId, req.query, false, req.threadId.value, savedAt);
      && r.memory == a.memory
      && r.response == Success(ChatResponse(req.userId, req.threadId.value, a.response.value.answer,
                                            a.response.value.routeUsed, respondedAt))
  {
    var c := GetCompiledAgent(g, db);
    if c.result.Failure? then ChatServed(Failure(AgentRaised(c.result.error)), c.globals, memory)
    else
      match req.threadId
      case None => ChatServed(Failure(ResponseRejected(NotAString("thread_id"))), c.globals, memory)
      case Some(thread) =>
        var a := Ask(Modular, g, db, memory, w, req.userId, req.query, false, thread, savedAt);
        match a.response
        case Failure(e) => ChatServed(Failure(AgentRaised(e)), a.globals, a.memory)
        case Success(resp) =>
          match MakeChatResponse(req.userId, req.threadId, resp.answer, resp.routeUsed, respondedAt)
          case Failure(e) => ChatServed(Failure(ResponseRejected(e)), a.globals, a.memory)
          case Success(body) => ChatServed(Success(body), a.globals, a.memory)
  }

  /** Two chats on one thread: the second one's agent sees the first turn. */
  lemma SecondChatSeesFirst(g: Globals, db: Db, memory: Memory, w: World, userId: string, q1: string,
                            q2: string, thread: string, t1: string, t2: string)
    requires GetCompiledAgent(g, db).result.Success? && GetCompiledAgent(g, db).result.value.checkpointed
    ensures var r1 := Chat(g, db, memory, w, ChatRequest(userId, q1, Some(thread)), t1, t2);
      r1.response.Success? &&
      PriorMessages(true, r1.memory, thread) ==
        PriorMessages(true, memory, thread) + Turn(q1, r1.response.value.botResponse)
  {
    AskRemembersTurn(Modular, g, db, memory, w, userId, q1, false, thread, t1);
  }

  /** One row of the history endpoint. */
  datatype HistoryRow = HistoryRow(role: string, content: string, timestamp: string)

  /** The row for one saved message: "user" for a human message, "assistant"
      otherwise, stamped with the checkpoint's time. */
  function Row(m: Message, ts: string): (r: HistoryRow)
    ensures r.role == "user" <==> m.kind == "human"
    ensures r.role != "user" ==> r.role == "assistant"
    ensures r.content == m.content && r.timestamp == ts
  {
    HistoryRow(if m.kind == "human" then "user" else "assistant", m.content, ts)
  }

  /** `query_conversation_history`: the thread's saved messages as rows;
      none when the graph has no checkpointer, the thread has no checkpoint,
      or the read raised (`readFails`). The user id plays no part. */
  function QueryConversationHistory(checkpointed: bool, memory: Memory, userId: string, threadId: string,
                                    readFails: bool): (r: seq<HistoryRow>)
    ensures !checkpointed || readFails || threadId !in memory ==> r == []
    ensures checkpointed && !readFails && threadId in memory ==>
      var cp := memory[threadId];
      |r| == |cp.values.messages| &&
      forall i :: 0 <= i < |r| ==> r[i] == Row(cp.values.messages[i], cp.ts)
  {
    if !checkpointed || readFails || threadId !in memory then []
    else
      var cp := memory[threadId];
      seq(|cp.values.messages|, i requires 0 <= i < |cp.values.messages| => Row(cp.values.messages[i], cp.ts))
  }

  /** Any user can read any thread: the rows do not depend on the user id. */
  lemma HistoryIgnoresUser(checkpointed: bool, memory: Memory, u1: string, u2: string, threadId: string,
                           readFails: bool)
    ensures QueryConversationHistory(checkpointed, memory, u1, threadId, readFails)
         == QueryConversationHistory(checkpointed, memory, u2, threadId, readFails)
  {
  }

  datatype HistoryResponse = HistoryResponse(userId: string, threadId: string, messages: seq<HistoryRow>,
                                             messageCount: nat, timestamp: string)

  /** Why the history endpoint failed: the agent raised outside any handler,
      or there were no rows. */
  datatype HistoryFailure = Unhandled(msg: string) | NoHistory

  function HistoryError(f: HistoryFailure): (e: HttpError)
    ensures f.Unhandled? ==> e.status == 500
    ensures f.NoHistory? ==> e == HttpError(404, HistoryNotFound)
  {
    match f
    case Unhandled(_) => HttpError(500, "Internal Server Error")
    case NoHistory => HttpError(404, HistoryNotFound)
  }

  /** `get_conversation_history(user_id, thread_id)`. */
  function GetConversationHistory(g: Globals, db: Db, memory: Memory, userId: string, threadId: string,
                                  readFails: bool, now: string): (r: (Result<HistoryResponse, HistoryFailure>, Globals))
    ensures r.1 == GetCompiledAgent(g, db).globals
    ensures GetCompiledAgent(g, db).result.Failure? ==> r.0 == Failure(Unhandled(GetCompiledAgent(g, db).result.error))
    ensures GetCompiledAgent(g, db).result.Success? ==>
      var rows := QueryConversationHistory(GetCompiledAgent(g, db).result.value.checkpointed, memory, userId,
                                           threadId, readFails);
      && (r.0.Failure? <==> rows == [])
      && (r.0.Failure? ==> r.0.error == NoHistory)
      && (r.0.Success? ==> r.0.value == HistoryResponse(userId, threadId, rows, |rows|, now))
  {
    var c := GetCompiledAgent(g, db);
    match c.result
    case Failure(e) => (Failure(Unhandled(e)), c.globals)
    case Success(compiled) =>
      var rows := QueryConversationHistory(compiled.checkpointed, memory, userId, threadId, readFails);
      if rows == [] then (Failure(NoHistory), c.globals)
      else (Success(HistoryResponse(userId, threadId, rows, |rows|, now)), c.globals)
  }

  /** After a chat on a checkpointed graph, the history of that thread is
      found and ends with the query and the answer just given. Both rows
      carry the checkpoint's timestamp `savedAt`, not the chat response's
      `respondedAt`. */
  lemma ChatThenHistory(g: Globals, db: Db, memory: Memory, w: World, userId: string, query: string,
                        thread: string, savedAt: string, respondedAt: string, later: string)
    requires GetCompiledAgent(g, db).result.Success? && GetCompiledAgent(g, db).result.value.checkpointed
    ensures var r := Chat(g, db, memory, w, ChatRequest(userId, query, Some(thread)), savedAt, respondedAt);
      var h := GetConversationHistory(r.globals, db, r.memory, userId, thread, false, later).0;
      && r.response.Success? && h.Success?
      && r.response.value.timestamp == respondedAt
      && h.value.messageCount >= 2
      && h.value.messages[h.value.messageCount - 2] == HistoryRow("user", query, savedAt)
      && h.value.messages[h.value.messageCount - 1] == HistoryRow("assistant", r.response.value.botResponse, savedAt)
  {
    ChatSavesTurn(g, db, memory, w, userId, query, thread, savedAt, respondedAt);
    var r := Chat(g, db, memory, w, ChatRequest(userId, query, Some(thread)), savedAt, respondedAt);
    CompiledOnce(g, db, db);
    assert GetCompiledAgent(r.globals, db) == GetCompiledAgent(g, db);
    RowsEndWithTurn(r.memory, userId, thread, PriorMessages(true, memory, thread), query,
                    r.response.value.botResponse, savedAt);
    var rows := QueryConversationHistory(true, r.memory, userId, thread, false);
    assert GetConversationHistory(r.globals, db, r.memory, userId, thread, false, later).0
        == Success(HistoryResponse(userId, thread, rows, |rows|, later));
  }

  /** A chat on a checkpointed graph succeeds, is stamped `respondedAt`,
      and saves its turn under the thread with the timestamp `savedAt`. */
  lemma ChatSavesTurn(g: Globals, db: Db, memory: Memory, w: World, userId: string, query: string,
                      thread: string, savedAt: string, respondedAt: string)
    requires GetCompiledAgent(g, db).result.Success? && GetCompiledAgent(g, db).result.value.checkpointed
    ensures var r := Chat(g, db, memory, w, ChatRequest(userId, query, Some(thread)), savedAt, respondedAt);
      && r.response.Success? && r.response.value.timestamp == respondedAt
      && r.globals == GetCompiledAgent(g, db).globals
      && thread in r.memory && r.memory[thread].ts == savedAt
      && r.memory[thread].values.messages == PriorMessages(true, memory, thread) + Turn(query, r.response.value.botResponse)
  {
    AskRemembersTurn(Modular, g, db, memory, w, userId, query, false, thread, savedAt);
  }

  /** A thread whose checkpoint ends with a turn reads back with that turn's
      two rows last, both stamped with the checkpoint's time. */
  lemma RowsEndWithTurn(memory: Memory, userId: string, thread: string, prior: seq<Message>, query: string,
                        answer: string, ts: string)
    requires thread in memory && memory[thread].ts == ts
    requires memory[thread].values.messages == prior + Turn(query, answer)
    ensures var rows := QueryConversationHistory(true, memory, userId, thread, false);
      && |rows| >= 2
      && rows[|rows| - 2] == HistoryRow("user", query, ts)
      && rows[|rows| - 1] == HistoryRow("assistant", answer, ts)
  {
    var msgs := memory[thread].values.messages;
    assert msgs[|msgs| - 2] == Human(query);
    assert msgs[|msgs| - 1] == Ai(answer);
  }
}
