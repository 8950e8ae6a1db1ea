/** The request and response schemas of the chat endpoint, as the
    validation of their fields decides them. A JSON field is missing, null,
    or given. */
module Schema {
  import opened Wrappers

  datatype Field<T> = Missing | Null | Given(value: T)

  /** The bounds on the length of a chat query, in characters. */
  const QueryMinLength: nat := 1
  const QueryMaxLength: nat := 1000

  /** The thread used when the request names none. */
  const DefaultThread: string := "default"

  /** A validated chat request: `threadId` is `None` when it was sent as null. */
  datatype ChatRequest = ChatRequest(userId: string, query: string, threadId: Option<string>)

  /** The request body as sent. */
  datatype RawChatRequest = RawChatRequest(userId: Field<string>, query: Field<string>, threadId: Field<string>)

  /** One validation error, naming the field. */
  datatype FieldError = Required(field: string) | NotAString(field: string) | TooShort(field: string) | TooLong(field: string)

  /** The error of a required string field, if any. */
  function RequiredString(name: string, f: Field<string>): (r: seq<FieldError>)
    ensures r == [] <==> f.Given?
  {
    match f
    case Missing => [Required(name)]
    case Null => [NotAString(name)]
    case Given(_) => []
  }

  /** The errors of the query field: it is required and must have between
      1 and 1000 characters. */
  function QueryErrors(f: Field<string>): (r: seq<FieldError>)
    ensures r == [] <==> f.Given? && QueryMinLength <= |f.value| <= QueryMaxLength
    ensures |r| <= 1
  {
    match f
    case Given(q) =>
      if |q| < QueryMinLength then [TooShort("query")]
      else if |q| > QueryMaxLength then [TooLong("query")]
      else []
    case _ => RequiredString("query", f)
  }

  /** The thread field is optional, defaults to "default", and accepts null. */
  function ThreadValue(f: Field<string>): (r: Option<string>)
    ensures f.Missing? ==> r == Some(DefaultThread)
    ensures f.Null? ==> r == None
    ensures f.Given? ==> r == Some(f.value)
  {
    match f
    case Missing => Some(DefaultThread)
    case Null => None
    case Given(t) => Some(t)
  }

  /** Validation of a chat request body: every field's errors are
      collected, in field order; a body without errors becomes a request. */
  function ValidateChatRequest(raw: RawChatRequest): (r: Result<ChatRequest, seq<FieldError>>)
    ensures r.Success? <==> raw.userId.Given? && raw.query.Given?
                            && QueryMinLength <= |raw.query.value| <= QueryMaxLength
    ensures r.Success? ==> r.value == ChatRequest(raw.userId.value, raw.query.value, ThreadValue(raw.threadId))
    ensures r.Failure? ==> r.error == RequiredString("user_id", raw.userId) + QueryErrors(raw.query)
  {
    var errors := RequiredString("user_id", raw.userId) + QueryErrors(raw.query);
    if errors == [] then Success(ChatRequest(raw.userId.value, raw.query.value, ThreadValue(raw.threadId)))
    else Failure(errors)
  }

  /** The body a client sends for a request. */
  function Encode(req: ChatRequest): RawChatRequest {
    RawChatRequest(Given(req.userId), Given(req.query),
                   if req.threadId.Some? then Given(req.threadId.value) else Null)
  }

  /** Every request with a query of valid length survives being sent and
      validated again. */
  lemma ValidateEncodeRoundTrip(req: ChatRequest)
    requires QueryMinLength <= |req.query| <= QueryMaxLength
    ensures ValidateChatRequest(Encode(req)) == Success(req)
  {
  }

  /** An empty query is always rejected, and it is the only query error. */
  lemma EmptyQueryRejected(userId: Field<string>, threadId: Field<string>)
    ensures var r := ValidateChatRequest(RawChatRequest(userId, Given(""), threadId));
      r.Failure? && r.error[|r.error| - 1] == TooShort("query")
  {
  }

  /** A validated chat response: every field is required and `threadId`
      must be a string. */
  datatype ChatResponse = ChatResponse(userId: string, threadId: string, botResponse: string, dataSource: string,
                                       timestamp: string)

  /** Building the response validates the thread id, which may be null in
      the request but not here. */
  function MakeChatResponse(userId: string, threadId: Option<string>, botResponse: string, dataSource: string,
                            timestamp: string): (r: Result<ChatResponse, FieldError>)
    ensures r.Success? <==> threadId.Some?
    ensures r.Success? ==> r.value == ChatResponse(userId, threadId.value, botResponse, dataSource, timestamp)
    ensures r.Failure? ==> r.error == NotAString("thread_id")
  {
    match threadId
    case None => Failure(NotAString("thread_id"))
    case Some(t) => Success(ChatResponse(userId, t, botResponse, dataSource, timestamp))
  }
}
