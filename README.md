# Mock servers of the OpenCode mobile client, modelled in Dafny

The repository's integration tests run against two mock HTTP servers. This
project models their deterministic core and proves its properties.

- **The chat mock** (`test/mock_llm_server.ts`) answers an OpenAI-style
  `POST /v1/chat/completions`. It picks the content of the last `user`
  message, falling back to `"Hello"`. It echoes that content after the prefix
  `"Mock response to: "`, cut to 100 characters, with `"..."` appended when
  something was cut. Token counts are character counts divided by 4. In
  streaming mode the reply goes out as a schedule of server-sent-event frames:
  - a role frame first;
  - one frame per `split(" ")` word, carrying `word + " "`, at 50 ms steps;
  - a stop frame and `[DONE]`, both at 50·W + 100 ms for W words, which is
    150 ms after the last word frame.
- **The session mock** (`test/mock_opencode_server.ts`) keeps three things in
  memory: a `sessions` table, a `messages` table and one id counter shared by
  session and message ids. `handleRequest` routes each `(method, path)` to
  one of these handlers:
  - create, get, update (title, archive) and delete a session;
  - list and append messages;
  - a status map over all sessions;
  - the constant replies of `/global/health`, `/config` and `/project`;
  - a 404 fallback.

  At process start the mock creates one seed session.

Modules, following the two source files:

| module | file | what |
|---|---|---|
| `Wrappers` | `text.dfy` | `Option` |
| `Text` | `text.dfy` | `split` and `join` on one separator character, with both round trips |
| `LlmReply` | `llm_reply.dfy` | last user message, reply text, usage counts, the completion body |
| `LlmStream` | `llm_stream.dfy` | the frame schedule as a function, the `start()` loop as a method, reassembly |
| `LlmServer` | `llm_server.dfy` | `fetch`: preflight, health, models, chat, 400 and 404 |
| `OpencodeIds` | `opencode_ids.dfy` | `generateId` strings and reading the counter back out of an id |
| `OpencodeRoutes` | `opencode_routes.dfy` | the anchored path patterns, `split('/')[2]`, and the route classifier |
| `OpencodeStore` | `opencode_store.dfy` | records, edits, replies, and the class `Server` holding the tables |

The session mock's state is the class `OpencodeStore.Server`. It has one
method per handler and `HandleRequest` for the whole dispatcher. Its
invariant `Valid()` holds that:
- `order`, the Map's insertion order, lists each key of `sessions` once;
- each session is stored under its own id;
- every stored session and message id ends with a counter value already issued.

The invariant is why a newly generated id is never a key of `sessions` nor
the id of a stored message.

## Model

| member | source | states |
|---|---|---|
| Text.Split | test/mock_llm_server.ts:100 | `split` on one character yields at least one piece, and no piece contains the separator |
| Text.SplitWithoutSeparator | test/mock_opencode_server.ts:84 | a string without the separator splits into itself alone |
| Text.SplitAround | test/mock_opencode_server.ts:84 | splitting around one separator is splitting each side and concatenating the pieces |
| Text.JoinSplit | test/mock_llm_server.ts:100 | joining the pieces of a split with the same separator gives back the string |
| Text.SplitJoin | test/mock_llm_server.ts:100 | splitting the join of separator-free pieces gives back the pieces |
| LlmReply.LastUserIndex | test/mock_llm_server.ts:29-31 | `reverse().find(role === "user")` finds the last user message, and finds nothing exactly when there is no user message |
| LlmReply.LastUserUnique | test/mock_llm_server.ts:29-31 | at most one position is the last user message |
| LlmReply.UserContent | test/mock_llm_server.ts:29-32 | the chosen content is the last user message's content, or `"Hello"` when there is none or it is empty; it is never empty |
| LlmReply.MockReply | test/mock_llm_server.ts:34 | the reply starts with the prefix; content of up to 100 characters follows it unchanged; longer content is cut to its first 100 characters and followed by `"..."`; the reply is at most prefix + 103 characters long |
| LlmReply.ShortReplyInjective | test/mock_llm_server.ts:34 | two contents of at most 100 characters with the same reply are equal |
| LlmReply.ChatUsage | test/mock_llm_server.ts:52-54 | 4 × prompt tokens is the content length, 4 × completion tokens is the reply length, total = prompt + completion |
| LlmReply.CreateChatResponse | test/mock_llm_server.ts:28-56 | the completion carries the given id, clock and model, the reply to the chosen content, reason `"stop"`, and usage counts tied to both lengths |
| LlmStream.StreamSchedule | test/mock_llm_server.ts:78-148 | for W words: W+3 frames; the role frame at 0; word i at 50·i carrying `word + " "`; the stop frame then `[DONE]`, both at 50·W + 100 |
| LlmStream.ScheduleOrdered | test/mock_llm_server.ts:101-147 | offsets never decrease over the schedule, and strictly increase over the word frames and the stop frame |
| LlmStream.BuildSchedule | test/mock_llm_server.ts:99-147 | the `for` loop with its running `delay` builds exactly the schedule |
| LlmStream.StreamedTextAppend | test/mock_llm_server.ts:115 | the streamed text of two schedules in a row is the two texts in a row |
| LlmStream.WordFramesText | test/mock_llm_server.ts:103-124 | frames carrying the words in order spell each word followed by a space |
| LlmStream.SpacedIsJoin | test/mock_llm_server.ts:115 | words each followed by a space are their join with a space, plus one trailing space |
| LlmStream.FramedWordsText | test/mock_llm_server.ts:81-146 | the role, stop and `[DONE]` frames add no text |
| LlmStream.StreamRoundTrip | test/mock_llm_server.ts:100-115 | concatenating every delta of the stream gives the reply plus one trailing space |
| LlmServer.Fetch | test/mock_llm_server.ts:163-257 | OPTIONS is answered before any other route. A 400 happens exactly on a chat POST whose body fails to parse or lacks `messages`. GET `/health` is the health reply and GET `/v1/models` the model list. A 404 happens exactly off the three routes. A parsed chat body streams if and only if it asks to, and both forms carry the reply to its messages |
| OpencodeIds.Decimal | test/mock_opencode_server.ts:17 | a number prints as a non-empty string of decimal digits |
| OpencodeIds.ParseDecimalInverse | test/mock_opencode_server.ts:17 | reading a printed number gives back the number |
| OpencodeIds.IdCounterOfIdString | test/mock_opencode_server.ts:16-18 | the last `-` piece of a generated id reads back as the counter value, whatever the prefix and clock |
| OpencodeIds.IdsDistinct | test/mock_opencode_server.ts:16-18 | ids made from different counter values differ, across prefixes and clock readings |
| OpencodeRoutes.ThirdPieceOfSessionPath | test/mock_opencode_server.ts:84 | `split('/')[2]` of a path under `/session/` is the first piece after that root |
| OpencodeRoutes.ThirdPieceOfSession | test/mock_opencode_server.ts:84 | `split('/')[2]` of `/session/{id}` is the id |
| OpencodeRoutes.ThirdPieceOfMessages | test/mock_opencode_server.ts:130 | `split('/')[2]` of `/session/{id}/message` is the id |
| OpencodeRoutes.MatchSession | test/mock_opencode_server.ts:83-84 | `^\/session\/[\w-]+$` matches exactly the paths `/session/{id}` with a `[\w-]+` id, and yields that id |
| OpencodeRoutes.MatchMessages | test/mock_opencode_server.ts:129-130 | `^\/session\/[\w-]+\/message$` matches exactly `/session/{id}/message` with a `[\w-]+` id, and yields that id |
| OpencodeRoutes.Classify | test/mock_opencode_server.ts:50-202 | OPTIONS comes before every route, and `/global/health` catches every method. Session and message routes carry the id their path was built from. The 404 fallback is taken exactly when the method is not OPTIONS and no branch handles the pair (`IsHandled`), and it keeps the path |
| OpencodeRoutes.SessionUrlMatches | test/mock_opencode_server.ts:83-138 | a session URL matches the first pattern only, and none of the fixed paths |
| OpencodeRoutes.MessageUrlMatches | test/mock_opencode_server.ts:83-138 | a message URL matches the second pattern only, and none of the fixed paths |
| OpencodeRoutes.ClassifySessionUrl | test/mock_opencode_server.ts:83-126 | GET, PUT and DELETE of `/session/{id}` reach their handlers with that id; POST there falls through to 404 |
| OpencodeRoutes.ClassifyMessageUrl | test/mock_opencode_server.ts:129-167 | GET and POST of `/session/{id}/message` reach their handlers with that id; DELETE there falls through to 404 |
| OpencodeRoutes.ClassifyFixedPaths | test/mock_opencode_server.ts:64-196 | the fixed paths reach their handlers; `/sessionStatus` is not taken for a session URL; POST there is a 404 |
| OpencodeStore.NewSession | test/mock_opencode_server.ts:20-31 | a new record is idle, not archived, and has the given id and clock. A truthy title is kept, and otherwise the title is `'New Session'`. The parent is the given one when it is truthy, and none otherwise. The working directory is `/test` |
| OpencodeStore.Updated | test/mock_opencode_server.ts:107-112 | a truthy title replaces the title; a truthy `time.archived` is stored and archives; the record is archived afterwards exactly when it was before or the value is truthy; nothing else changes |
| OpencodeStore.UpdateIdempotent | test/mock_opencode_server.ts:107-112 | applying the same PUT body twice is applying it once |
| OpencodeStore.ArchivedIsTerminal | test/mock_opencode_server.ts:107-112 | no run of PUT edits brings an archived session back to idle |
| OpencodeStore.IdleMeansNeverArchived | test/mock_opencode_server.ts:109-112 | a session still idle after a run of edits was idle before and saw no truthy `time.archived` |
| OpencodeStore.UserMessage | test/mock_opencode_server.ts:142-148 | the user message carries the request's clock reading, and has the content as text when it is truthy, and the empty string otherwise |
| OpencodeStore.AssistantMessage | test/mock_opencode_server.ts:154-160 | the assistant message carries the request's clock reading, and its text is the prefix followed by the raw content, or by `"undefined"` when the field is absent |
| OpencodeStore.StatusCode | test/mock_opencode_server.ts:45-209 | a reply is a 404 exactly when it is session-not-found or route-not-found, and a 500 exactly when it is the caught exception |
| OpencodeStore.Without | test/mock_opencode_server.ts:121 | the Map's key order after `delete(x)` holds the other keys and stays duplicate-free |
| OpencodeStore.WithoutPairInOrder | test/mock_opencode_server.ts:121 | any two keys left after `delete(x)` appear in that order in the key order before it |
| OpencodeStore.WithoutKeepsOrder | test/mock_opencode_server.ts:121 | `delete(x)` keeps the relative insertion order of all the surviving keys, which GET `/session` lists afterwards |
| OpencodeStore.DistinctCardinality | test/mock_opencode_server.ts:66 | a duplicate-free key order holds as many keys as the table |
| OpencodeStore.ValuesInOrder | test/mock_opencode_server.ts:66 | the values listed are those of the table at each key, in key order |
| OpencodeStore.Server.Start | test/mock_opencode_server.ts:215 | after startup the tables hold exactly one idle session titled `'Test Session'` with an empty message list, and the counter is 1 |
| OpencodeStore.Server.GenerateId | test/mock_opencode_server.ts:16-18 | the counter goes up by one and the id ends with its new value, so it was never issued before |
| OpencodeStore.Server.CreateSession | test/mock_opencode_server.ts:20-35 | exactly one new key in `sessions`, mapped to a fresh idle record, and the same key mapped to `[]` in `messages` |
| OpencodeStore.Server.SessionList | test/mock_opencode_server.ts:65-70 | the list holds the stored sessions in insertion order: entry i is the session under the i-th key of `order`. So it holds every stored session and nothing else, each once |
| OpencodeStore.Server.PostSession | test/mock_opencode_server.ts:73-80 | a body that fails to parse is a 500 with nothing changed; any other body, `null` included, creates a session and answers 201 with it |
| OpencodeStore.Server.GetSession | test/mock_opencode_server.ts:83-95 | a stored id answers its record; an unknown id is a 404 |
| OpencodeStore.Server.UpdateSession | test/mock_opencode_server.ts:98-116 | an unknown id is a 404 whatever the body. A body that fails to parse, or `null`, is a 500. Otherwise only that record is edited. No session leaves the archived state |
| OpencodeStore.Server.DeleteSession | test/mock_opencode_server.ts:119-126 | the id leaves both tables, every other entry stays, and the answer is `true` whether or not the id existed |
| OpencodeStore.Server.ListMessages | test/mock_opencode_server.ts:129-135 | the answer is the stored list, or `[]` for an unknown id, and nothing changes |
| OpencodeStore.Server.Append | test/mock_opencode_server.ts:149-151 | the message goes to the end of the id's list, creating the list when the id has none |
| OpencodeStore.Server.AppendReply | test/mock_opencode_server.ts:154-161 | a fresh id, then the assistant message at the end of the list |
| OpencodeStore.Server.RecordExchange | test/mock_opencode_server.ts:142-161 | the user message and then the assistant message, under two consecutive counter values |
| OpencodeStore.Server.PostMessage | test/mock_opencode_server.ts:138-167 | exactly two messages are appended, user then assistant, under two fresh and distinct ids, for any id, stored or not. The answer is the user message. A body that fails to parse is a 500 with nothing changed, and `null` is a 500 after one id was spent |
| OpencodeStore.Server.StatusMap | test/mock_opencode_server.ts:188-196 | the status map has exactly the keys of `sessions`, each mapped to that session's status |
| OpencodeStore.Server.DispatchRead | test/mock_opencode_server.ts:56-209 | the branches that only read: the list in insertion order, a stored id's record or a 404, the message list or `[]`, the status of every session, the constant replies, and a 404 only from the fallback or an unknown id |
| OpencodeStore.Server.DispatchWrite | test/mock_opencode_server.ts:73-167 | the branches that write: create, edit, delete and message POST, each with its full new state (`counter`, `sessions`, `order`, `messages`) and its 500 cases |
| OpencodeStore.Server.Dispatch | test/mock_opencode_server.ts:56-209 | every route's reply and its whole new state. Only the four writing routes change state. A 404 comes only from the fallback or from GET/PUT of an unknown session. POST `/session` answers 500 with nothing changed, or creates a session appended to `order`. PUT of a stored id edits only that record. DELETE drops the id from both tables and from `order`, and leaves the counter. Message POST leaves `sessions` and `order`. It appends both messages, or is a 500 with `messages` unchanged and one id spent for a `null` body. The status map carries each session's status. No session leaves the archived state or is created anything but idle |
| OpencodeStore.Server.HandleSessionUrl | test/mock_opencode_server.ts:83-126 | on `/session/{id}`: GET/PUT of an unknown id is a 404 with nothing changed; GET of a stored id answers its record; PUT of a stored id edits only it and leaves `order` and the counter, or is a 500 for an unparsable or `null` body; DELETE drops the id from both tables and from `order`, leaving the counter; any other method but OPTIONS is a 404 |
| OpencodeStore.Server.HandleMessageUrl | test/mock_opencode_server.ts:129-167 | on `/session/{id}/message`: GET lists with nothing changed; POST appends the user and the assistant message under the next two counter values, or is a 500 for an unparsable or `null` body, and never touches `sessions` or `order`; any other method but OPTIONS is a 404 |
| OpencodeStore.Server.HandleFixedPath | test/mock_opencode_server.ts:50-202 | on any other path: GET `/session` lists in insertion order, POST `/session` creates a session appended to `order` or is a 500, `/sessionStatus` maps every session to its status, the constant routes answer their constants, and every pair no branch handles is a 404 that keeps the path and changes nothing |
| OpencodeStore.Server.HandleRequest | test/mock_opencode_server.ts:45-210 | for every route: OPTIONS is a 204 with nothing changed. GET `/session` lists, and POST `/session` creates a session appended to `order` or is a 500. On `/session/{id}`: an unknown id is a 404 for GET/PUT. A stored id answers its record, or is edited alone with `order` and the counter unchanged. DELETE drops the id from both tables and from `order`. On `/session/{id}/message`: GET lists. POST appends both messages to `messages`, or is a 500, and leaves `sessions` and `order`. `/sessionStatus` maps every session to its status. The constant routes answer their constants. Every other pair is a 404 that changes nothing |

## Left out

- HTTP plumbing is not modelled: `Bun.serve`, `Request`/`Response` objects, headers and CORS header contents, the port read from the environment, and the console output. A reply is a datatype naming the response; `StatusCode` gives its status.
- JSON is not modelled. `req.json()` and `request.json()` become decoded-body datatypes with a "fails to parse" case. A `null` chat body (reading `body.stream` throws, so 400) is folded into that case. Field values of unexpected JSON types are not modelled: a non-string `title` or `content`, a non-array `messages`, a non-string message `content`, a non-boolean `stream` (read by truthiness at test/mock_llm_server.ts:217, so `"stream": 1` streams, while the model's `stream` is a `bool`), and a `time.archived` that is not a number (read by truthiness at test/mock_opencode_server.ts:109; the model takes an optional integer).
- Time and randomness are inputs. One `now` stands for every `Date.now()` one request makes, although the source reads the clock again for each timestamp. The chat mock's response id, made from the clock and `Math.random`, is a parameter.
- The `created` field of each stream chunk is not modelled. The role chunk reads the clock at once in `start()` (test/mock_llm_server.ts:86); every later chunk reads it when its timer fires.
- Timers, `ReadableStream`, `TextEncoder` and `controller.enqueue`/`close` are replaced by the schedule of (offset, frame) pairs. Timer firing, jitter and the interleaving of concurrent requests are not modelled.
- `length / 4` is exact `real` division rather than floating point. The two agree for every length a string can have.
- `substring` and `length` count UTF-16 code units in JavaScript; the model counts Dafny characters, which are Unicode scalar values. They differ for characters outside the Basic Multilingual Plane.
- The catch-all 500 of the session mock is modelled only where a handler in scope throws: a body that fails to parse, and a `null` body read by PUT or by POST of a message. Other runtime faults are not modelled.
- The constant bodies of `/config`, `/project`, `/v1/models`, `/health` and `/global/health` are named replies without their contents.
- `messageCounter` is declared but never used by the source, so it is not modelled.

Behaviour of the code as written, which the model keeps:
- POST `/session/{id}/message` never checks that the session exists (test/mock_opencode_server.ts:149-151). So an unknown id gets a message list of its own, and `Valid()` does not tie the keys of `messages` to those of `sessions`.
- The assistant text uses the raw `body.content` and prints `"undefined"` when the field is absent (test/mock_opencode_server.ts:158). The user text uses `body.content || ''` (test/mock_opencode_server.ts:146).
- A `null` body on POST of a message fails only after the first `generateId` (test/mock_opencode_server.ts:141-146). So that failed request still consumes one counter value.
- Archiving follows JavaScript truthiness: a `time.archived` of 0 neither stores the value nor archives (test/mock_opencode_server.ts:109-112).
- `createSession` sets the new id's message list to `[]` unconditionally (test/mock_opencode_server.ts:33). So it replaces a message list posted earlier to the id it generates (test/mock_opencode_server.ts:149-151).
- DELETE answers `true` whether or not the id existed, while GET and PUT of an unknown id answer 404 (test/mock_opencode_server.ts:85-91, 100-106, 119-125).
