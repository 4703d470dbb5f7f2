/**
 * The chat mock's reply synthesis (test/mock_llm_server.ts, createChatResponse
 * and the first lines of createStreamingResponse): pick the content of the
 * last user message, echo it behind a fixed prefix, truncated to 100
 * characters, and estimate token counts as character counts divided by 4.
 */
module LlmReply {
  import opened Wrappers

  /** One entry of a request's `messages`; the role arrives as a string ("system", "user", "assistant"). */
  datatype ChatMessage = ChatMessage(role: string, content: string)

  const UserRole := "user"
  const FallbackContent := "Hello"
  const ReplyPrefix := "Mock response to: "
  const EchoLimit := 100
  const Ellipsis := "..."

  /** Message `i` is a user message and no later message is one. */
  predicate IsLastUser(msgs: seq<ChatMessage>, i: int) {
    0 <= i < |msgs| && msgs[i].role == UserRole &&
    forall j :: i < j < |msgs| ==> msgs[j].role != UserRole
  }

  predicate NoUserMessage(msgs: seq<ChatMessage>) {
    forall j :: 0 <= j < |msgs| ==> msgs[j].role != UserRole
  }

  /** The position `[...messages].reverse().find(m => m.role === "user")` lands on. */
  function LastUserIndex(msgs: seq<ChatMessage>): (r: Option<nat>)
    ensures r.Some? ==> IsLastUser(msgs, r.value)
    ensures r.None? <==> NoUserMessage(msgs)
    decreases |msgs|
  {
    if |msgs| == 0 then None
    else if msgs[|msgs| - 1].role == UserRole then Some(|msgs| - 1)
    else
      var front := msgs[..|msgs| - 1];
      var r := LastUserIndex(front);
      assert forall j :: 0 <= j < |front| ==> front[j] == msgs[j];
      r
  }

  /** At most one position is the last user message. */
  lemma LastUserUnique(msgs: seq<ChatMessage>, i: int, k: int)
    requires IsLastUser(msgs, i) && IsLastUser(msgs, k)
    ensures i == k
  {
  }

  /** `lastUserMessage?.content || "Hello"`: an absent message and an empty content both fall back. */
  function UserContent(msgs: seq<ChatMessage>): (c: string)
    ensures c != ""
    ensures NoUserMessage(msgs) ==> c == FallbackContent
    ensures forall i :: IsLastUser(msgs, i) ==>
      c == if msgs[i].content == "" then FallbackContent else msgs[i].content
  {
    match LastUserIndex(msgs)
    case None => FallbackContent
    case Some(i) =>
      assert forall k :: IsLastUser(msgs, k) ==> k == i by {
        forall k | IsLastUser(msgs, k) { LastUserUnique(msgs, i, k); }
      }
      if msgs[i].content == "" then FallbackContent else msgs[i].content
  }

  /** `userContent.substring(0, 100)`. */
  function Truncated(content: string): string {
    if |content| <= EchoLimit then content else content[..EchoLimit]
  }

  /** The synthesized reply: prefix, the first 100 characters, and "..." when something was cut. */
  function MockReply(content: string): (r: string)
    ensures |ReplyPrefix| <= |r| && r[..|ReplyPrefix|] == ReplyPrefix
    ensures |content| <= EchoLimit ==> r[|ReplyPrefix|..] == content
    ensures |content| > EchoLimit ==>
      |r| == |ReplyPrefix| + EchoLimit + |Ellipsis| &&
      r[|ReplyPrefix|..|ReplyPrefix| + EchoLimit] == content[..EchoLimit] &&
      r[|ReplyPrefix| + EchoLimit..] == Ellipsis
    ensures |r| <= |ReplyPrefix| + EchoLimit + |Ellipsis|
  {
    ReplyPrefix + Truncated(content) + (if |content| > EchoLimit then Ellipsis else "")
  }

  /** Contents of at most 100 characters are recovered from the reply, so such replies never collide. */
  lemma ShortReplyInjective(a: string, b: string)
    requires |a| <= EchoLimit && |b| <= EchoLimit
    requires MockReply(a) == MockReply(b)
    ensures a == b
  {
  }

  /** `usage`: each count is a character count divided by 4, with JavaScript's exact division. */
  datatype Usage = Usage(promptTokens: real, completionTokens: real, totalTokens: real)

  function ChatUsage(content: string, reply: string): (u: Usage)
    ensures 4.0 * u.promptTokens == |content| as real
    ensures 4.0 * u.completionTokens == |reply| as real
    ensures u.totalTokens == u.promptTokens + u.completionTokens
  {
    Usage(|content| as real / 4.0, |reply| as real / 4.0, (|content| + |reply|) as real / 4.0)
  }

  /** The JSON body of a non-streaming completion; `created` is the caller's clock reading in seconds. */
  datatype ChatCompletion = ChatCompletion(
    id: string, created: int, model: string,
    content: string, finishReason: string, usage: Usage)

  /** `createChatResponse` for a request whose `messages` are present. */
  function CreateChatResponse(id: string, created: int, model: string, msgs: seq<ChatMessage>): (c: ChatCompletion)
    ensures c.id == id && c.created == created && c.model == model && c.finishReason == "stop"
    ensures c.content == MockReply(UserContent(msgs))
    ensures 4.0 * c.usage.promptTokens == |UserContent(msgs)| as real
    ensures 4.0 * c.usage.completionTokens == |c.content| as real
    ensures c.usage.totalTokens == c.usage.promptTokens + c.usage.completionTokens
    ensures 4.0 * c.usage.completionTokens <= (|ReplyPrefix| + EchoLimit + |Ellipsis|) as real
  {
    var content := UserContent(msgs);
    var reply := MockReply(content);
    ChatCompletion(id, created, model, reply, "stop", ChatUsage(content, reply))
  }
}
