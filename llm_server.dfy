/**
 * The request dispatch of the chat mock (test/mock_llm_server.ts, `fetch`).
 * The decoded body, the response id (`generateResponseId`, built from the
 * clock and `Math.random`) and the clock reading in seconds are inputs.
 */
module LlmServer {
  import opened Wrappers
  import opened LlmReply
  import opened LlmStream

  const ChatPath := "/v1/chat/completions"

  /** A decoded chat request; `messages` is None when the JSON object has no such field. */
  datatype ChatRequest = ChatRequest(model: string, messages: Option<seq<ChatMessage>>, stream: bool)

  /** What `await request.json()` yields: a parse failure, or the decoded request. */
  datatype RequestBody = Unparsable | Decoded(request: ChatRequest)

  datatype LlmResponse =
    | Preflight                                   // 204, CORS only
    | Health                                      // 200 {status: "ok"}
    | ModelList                                   // 200, the one mock model
    | Completion(completion: ChatCompletion)      // 200 application/json
    | EventStream(schedule: seq<Timed>)           // 200 text/event-stream
    | InvalidRequest                              // 400 invalid_request_error
    | NotFound                                    // 404 {error: "Not found"}

  function StatusCode(r: LlmResponse): nat {
    match r
    case Preflight => 204
    case InvalidRequest => 400
    case NotFound => 404
    case _ => 200
  }

  /** The body fails to parse, or `[...request.messages]` throws because `messages` is missing. */
  predicate Rejected(body: RequestBody) {
    body.Unparsable? || body.request.messages.None?
  }

  predicate IsChatPost(httpMethod: string, path: string) {
    httpMethod == "POST" && path == ChatPath
  }

  predicate IsKnownRoute(httpMethod: string, path: string) {
    || (httpMethod == "GET" && path == "/health")
    || (httpMethod == "GET" && path == "/v1/models")
    || IsChatPost(httpMethod, path)
  }

  function Fetch(httpMethod: string, path: string, body: RequestBody, responseId: string, created: int): (r: LlmResponse)
    // preflight comes before every other route
    ensures httpMethod == "OPTIONS" ==> r == Preflight
    // a 400 happens exactly on a chat POST whose body is rejected, and carries no stream
    ensures StatusCode(r) == 400 <==> IsChatPost(httpMethod, path) && Rejected(body)
    ensures httpMethod == "GET" && path == "/health" ==> r == Health
    ensures httpMethod == "GET" && path == "/v1/models" ==> r == ModelList
    ensures StatusCode(r) == 404 <==> httpMethod != "OPTIONS" && !IsKnownRoute(httpMethod, path)
    ensures r.EventStream? ==>
      && IsChatPost(httpMethod, path) && body.Decoded? && body.request.stream
      && body.request.messages.Some?
      && r.schedule == StreamSchedule(responseId, body.request.model,
                                      MockReply(UserContent(body.request.messages.value)))
    ensures r.Completion? ==>
      && IsChatPost(httpMethod, path) && body.Decoded? && !body.request.stream
      && body.request.messages.Some?
      && r.completion == CreateChatResponse(responseId, created, body.request.model, body.request.messages.value)
    ensures IsChatPost(httpMethod, path) && !Rejected(body) ==>
      (r.EventStream? <==> body.request.stream) && (r.Completion? <==> !body.request.stream)
  {
    if httpMethod == "OPTIONS" then Preflight
    else if path == "/health" && httpMethod == "GET" then Health
    else if path == "/v1/models" && httpMethod == "GET" then ModelList
    else if path == ChatPath && httpMethod == "POST" then
      match body
      case Unparsable => InvalidRequest
      case Decoded(req) =>
        match req.messages
        case None => InvalidRequest
        case Some(msgs) =>
          if req.stream then
            EventStream(StreamSchedule(responseId, req.model, MockReply(UserContent(msgs))))
          else
            Completion(CreateChatResponse(responseId, created, req.model, msgs))
    else NotFound
  }
}
