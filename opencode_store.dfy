/**
 * The session mock's state and handlers (test/mock_opencode_server.ts): the
 * module-level tables `sessions` and `messages`, the shared id counter, one
 * method per route branch of `handleRequest`, and the startup seed session.
 * Clock readings are method parameters; one reading stands for every
 * `Date.now()` a request makes.
 */
module OpencodeStore {
  import opened Wrappers
  import opened OpencodeIds
  import opened OpencodeRoutes

  datatype Status = Idle | Archived

  /** A session record; `archived` is `time.archived`, `cwd` is `path.cwd`. */
  datatype Session = Session(
    id: string, title: string, status: Status, created: int,
    archived: Option<int>, cwd: string, parentID: Option<string>)

  datatype Role = User | Assistant
  datatype Part = TextPart(text: string)
  datatype Message = Message(id: string, sessionID: string, role: Role, parts: seq<Part>, created: int)

  /**
   * What `await req.json()` yields, reduced to the fields the handlers read:
   * a parse failure (the call throws), JSON `null`, or an object whose
   * `title`, `parentID`, `time.archived` and `content` may be absent.
   */
  datatype Body =
    | Unparsable
    | Null
    | Fields(title: Option<string>, parentID: Option<string>, archived: Option<int>, content: Option<string>)

  /** JavaScript truthiness of an optional string and an optional number. */
  predicate TruthyText(v: Option<string>) { v.Some? && v.value != "" }
  predicate TruthyNumber(v: Option<int>) { v.Some? && v.value != 0 }

  const DefaultTitle := "New Session"
  const SeedTitle := "Test Session"
  const WorkingDirectory := "/test"
  const AssistantPrefix := "Mock response to: "

  /** The record `createSession` builds for a fresh id. */
  function NewSession(id: string, title: Option<string>, parentID: Option<string>, now: int): (s: Session)
    ensures s.id == id && s.status == Idle && s.archived == None && s.created == now
    ensures s.title != ""
    ensures TruthyText(title) ==> s.title == title.value
    ensures !TruthyText(title) ==> s.title == DefaultTitle
    ensures s.parentID == (if TruthyText(parentID) then parentID else None)
    ensures s.cwd == WorkingDirectory
  {
    Session(id, if TruthyText(title) then title.value else DefaultTitle, Idle, now, None,
            WorkingDirectory, if TruthyText(parentID) then parentID else None)
  }

  /** The in-place edit of PUT: a truthy title replaces the title, a truthy `time.archived` archives. */
  function Updated(s: Session, title: Option<string>, archived: Option<int>): (u: Session)
    ensures u.id == s.id && u.created == s.created && u.cwd == s.cwd && u.parentID == s.parentID
    ensures u.title == (if TruthyText(title) then title.value else s.title)
    ensures u.status == Archived <==> s.status == Archived || TruthyNumber(archived)
    ensures u.archived == (if TruthyNumber(archived) then archived else s.archived)
  {
    var t := if TruthyText(title) then title.value else s.title;
    if TruthyNumber(archived) then s.(title := t, archived := archived, status := Archived)
    else s.(title := t)
  }

  /** Applying the same update twice is applying it once. */
  lemma UpdateIdempotent(s: Session, title: Option<string>, archived: Option<int>)
    ensures Updated(Updated(s, title, archived), title, archived) == Updated(s, title, archived)
  {
  }

  /** A run of PUT edits on one session, in order. */
  function UpdateAll(s: Session, edits: seq<(Option<string>, Option<int>)>): Session
    decreases |edits|
  {
    if edits == [] then s else UpdateAll(Updated(s, edits[0].0, edits[0].1), edits[1..])
  }

  /** `archived` is terminal: no sequence of edits brings a session back to `idle`. */
  lemma {:induction false} ArchivedIsTerminal(s: Session, edits: seq<(Option<string>, Option<int>)>)
    requires s.status == Archived
    ensures UpdateAll(s, edits).status == Archived
    ensures UpdateAll(s, edits).id == s.id
    decreases |edits|
  {
    if edits != [] {
      ArchivedIsTerminal(Updated(s, edits[0].0, edits[0].1), edits[1..]);
    }
  }

  /** An idle session that stays idle under a run of edits saw no truthy `time.archived`. */
  lemma {:induction false} IdleMeansNeverArchived(s: Session, edits: seq<(Option<string>, Option<int>)>)
    requires UpdateAll(s, edits).status == Idle
    ensures s.status == Idle
    ensures forall i :: 0 <= i < |edits| ==> !TruthyNumber(edits[i].1)
    decreases |edits|
  {
    if edits != [] {
      var next := Updated(s, edits[0].0, edits[0].1);
      IdleMeansNeverArchived(next, edits[1..]);
      assert forall i :: 1 <= i < |edits| ==> edits[i] == edits[1..][i - 1];
    }
  }

  /** `${body.content}` in a template literal: an absent field prints as "undefined". */
  function TemplateText(content: Option<string>): string {
    match content
    case None => "undefined"
    case Some(c) => c
  }

  /** The `body?.title` and `body?.parentID` that `createSession` reads; a `null` body has neither. */
  function TitleOf(body: Body): Option<string> {
    if body.Fields? then body.title else None
  }

  function ParentOf(body: Body): Option<string> {
    if body.Fields? then body.parentID else None
  }

  /** The stored user message: text `body.content || ''`. */
  function UserMessage(id: string, sessionID: string, content: Option<string>, now: int): (m: Message)
    ensures m.role == User && m.id == id && m.sessionID == sessionID && m.created == now && |m.parts| == 1
    ensures TruthyText(content) ==> m.parts[0].text == content.value
    ensures !TruthyText(content) ==> m.parts[0].text == ""
  {
    Message(id, sessionID, User, [TextPart(if TruthyText(content) then content.value else "")], now)
  }

  /** The stored assistant message: text `Mock response to: ${body.content}`, raw content. */
  function AssistantMessage(id: string, sessionID: string, content: Option<string>, now: int): (m: Message)
    ensures m.role == Assistant && m.id == id && m.sessionID == sessionID && m.created == now && |m.parts| == 1
    ensures |m.parts[0].text| >= |AssistantPrefix| && m.parts[0].text[..|AssistantPrefix|] == AssistantPrefix
    ensures content.Some? ==> m.parts[0].text[|AssistantPrefix|..] == content.value
    ensures content.None? ==> m.parts[0].text[|AssistantPrefix|..] == "undefined"
  {
    Message(id, sessionID, Assistant, [TextPart(AssistantPrefix + TemplateText(content))], now)
  }

  /** `messages.get(id) || []`. */
  function Stored(table: map<string, seq<Message>>, id: string): seq<Message> {
    if id in table then table[id] else []
  }

  /** What a handler answers, with its status code below. */
  datatype Reply =
    | NoContent
    | HealthOk
    | SessionListed(sessions: seq<Session>)
    | SessionCreated(session: Session)
    | SessionBody(session: Session)
    | SessionNotFound
    | DeletedTrue
    | MessagesListed(messages: seq<Message>)
    | MessageCreated(message: Message)
    | ConfigBody
    | ProjectList
    | StatusBody(statuses: map<string, Status>)
    | RouteNotFound(path: string)
    | InternalError

  function StatusCode(r: Reply): (code: nat)
    ensures code == 404 <==> r.SessionNotFound? || r.RouteNotFound?
    ensures code == 500 <==> r.InternalError?
  {
    match r
    case NoContent => 204
    case SessionCreated(_) => 201
    case MessageCreated(_) => 201
    case SessionNotFound => 404
    case RouteNotFound(_) => 404
    case InternalError => 500
    case _ => 200
  }

  predicate Distinct(s: seq<string>) {
    forall i, j :: 0 <= i < j < |s| ==> s[i] != s[j]
  }

  /** `order` after `sessions.delete(x)`: the same keys in the same order, without `x`. */
  function Without(s: seq<string>, x: string): (r: seq<string>)
    ensures forall y :: y in r <==> y in s && y != x
    ensures Distinct(s) ==> Distinct(r)
    decreases |s|
  {
    if s == [] then []
    else if s[0] == x then Without(s[1..], x)
    else
      var rest := Without(s[1..], x);
      assert Distinct(s) ==> s[0] !in s[1..];
      [s[0]] + rest
  }

  /** Two surviving keys, in their order after `Map.delete`, sit in the same order before it. */
  lemma {:induction false} WithoutPairInOrder(s: seq<string>, x: string, i: nat, j: nat)
    requires i < j < |Without(s, x)|
    ensures exists p, q :: 0 <= p < q < |s| && s[p] == Without(s, x)[i] && s[q] == Without(s, x)[j]
    decreases |s|
  {
    var t := s[1..];
    var r, rest := Without(s, x), Without(t, x);
    if s[0] == x {
      assert r == rest;
      WithoutPairInOrder(t, x, i, j);
      var p, q :| 0 <= p < q < |t| && t[p] == rest[i] && t[q] == rest[j];
      assert 0 <= p + 1 < q + 1 < |s| && s[p + 1] == r[i] && s[q + 1] == r[j];
    } else if i == 0 {
      assert r[j] == rest[j - 1] && rest[j - 1] in rest;
      var q :| 0 <= q < |t| && t[q] == rest[j - 1];
      assert 0 < q + 1 < |s| && s[0] == r[i] && s[q + 1] == r[j];
    } else {
      assert r[i] == rest[i - 1] && r[j] == rest[j - 1];
      WithoutPairInOrder(t, x, i - 1, j - 1);
      var p, q :| 0 <= p < q < |t| && t[p] == rest[i - 1] && t[q] == rest[j - 1];
      assert 0 <= p + 1 < q + 1 < |s| && s[p + 1] == r[i] && s[q + 1] == r[j];
    }
  }

  /** `Map.delete` keeps the relative order of the surviving keys. */
  lemma WithoutKeepsOrder(s: seq<string>, x: string)
    ensures var r := Without(s, x);
      forall i, j :: 0 <= i < j < |r| ==> exists p, q :: 0 <= p < q < |s| && s[p] == r[i] && s[q] == r[j]
  {
    forall i: nat, j: nat | i < j < |Without(s, x)|
      ensures exists p, q :: 0 <= p < q < |s| && s[p] == Without(s, x)[i] && s[q] == Without(s, x)[j]
    {
      WithoutPairInOrder(s, x, i, j);
    }
  }

  lemma {:induction false} DistinctCardinality(s: seq<string>)
    requires Distinct(s)
    ensures |set x | x in s| == |s|
    decreases |s|
  {
    if s != [] {
      DistinctCardinality(s[1..]);
      assert (set x | x in s) == {s[0]} + (set x | x in s[1..]);
      assert s[0] !in s[1..];
    }
  }

  /** The values of `table` at `keys`, in the order of `keys`. */
  function ValuesInOrder(keys: seq<string>, table: map<string, Session>): (r: seq<Session>)
    requires forall k :: k in keys ==> k in table
    ensures |r| == |keys| && forall i :: 0 <= i < |keys| ==> r[i] == table[keys[i]]
  {
    seq(|keys|, i requires 0 <= i < |keys| => table[keys[i]])
  }

  /** The routes whose branch may change the tables or the counter. */
  predicate ChangesState(route: Route) {
    route.SessionCreateRoute? || route.SessionPutRoute? || route.SessionDeleteRoute? || route.MessagePostRoute?
  }

  /** No archived session of `before` is anything but archived in `after`. */
  predicate KeepsArchived(before: map<string, Session>, after: map<string, Session>) {
    forall k :: k in before && k in after && before[k].status == Archived ==> after[k].status == Archived
  }

  /** Every session of `after` that `before` lacks is idle. */
  predicate NewAreIdle(before: map<string, Session>, after: map<string, Session>) {
    forall k :: k in after && k !in before ==> after[k].status == Idle
  }

  /** The id was made by `generateId` when the counter was at most `counter`. */
  predicate Issued(id: string, counter: nat) {
    IdCounter(id).Some? && IdCounter(id).value <= counter
  }

  class Server {
    /** The `sessions` Map; `order` is its key order, which a JavaScript Map keeps as insertion order. */
    var sessions: map<string, Session>
    var order: seq<string>
    /** The `messages` Map: one list per id, created by a session or by a first POST of a message. */
    var messages: map<string, seq<Message>>
    /** `sessionCounter`, shared by session and message ids. */
    var counter: nat

    ghost predicate Valid()
      reads this
    {
      && Distinct(order)
      && (forall k :: k in sessions <==> k in order)
      && (forall k :: k in sessions ==> sessions[k].id == k && Issued(k, counter))
      && (forall k, i :: k in messages && 0 <= i < |messages[k]| ==> Issued(messages[k][i].id, counter))
    }

    /** A POST /session that creates: one fresh idle session, appended to the key order, answered with 201. */
    twostate predicate SessionPosted(body: Body, now: nat, reply: Reply)
      reads this
    {
      var s := NewSession(IdString("session", now, counter), TitleOf(body), ParentOf(body), now);
      && reply == SessionCreated(s)
      && counter == old(counter) + 1
      && s.id !in old(sessions)
      && sessions == old(sessions)[s.id := s] && order == old(order) + [s.id]
      && messages == old(messages)[s.id := []]
    }

    /** A POST /session/{id}/message with an object body: the user and the assistant message, appended under the next two counter values. */
    twostate predicate MessagesPosted(id: string, content: Option<string>, now: nat, reply: Reply)
      reads this
    {
      var user := UserMessage(IdString("msg", now, old(counter) + 1), id, content, now);
      var assistant := AssistantMessage(IdString("msg", now, old(counter) + 2), id, content, now);
      && counter == old(counter) + 2
      && reply == MessageCreated(user)
      && messages == old(messages)[id := Stored(old(messages), id) + [user, assistant]]
    }

    /** Process start: empty tables, then `createSession({ title: 'Test Session' })`. */
    constructor Start(now: nat)
      ensures Valid()
      ensures counter == 1
      ensures order == [IdString("session", now, 1)]
      ensures sessions == map[order[0] := Session(order[0], SeedTitle, Idle, now, None, WorkingDirectory, None)]
      ensures messages == map[order[0] := []]
    {
      sessions := map[];
      order := [];
      messages := map[];
      counter := 0;
      new;
      var seed := CreateSession(Some(SeedTitle), None, now);
    }

    /** `generateId(prefix)`: bump the shared counter and end the id with its new value. */
    method GenerateId(prefix: string, now: nat) returns (id: string)
      requires Valid()
      modifies this`counter
      ensures Valid()
      ensures counter == old(counter) + 1
      ensures id == IdString(prefix, now, counter)
      ensures IdCounter(id) == Some(counter) && !Issued(id, old(counter))
    {
      counter := counter + 1;
      id := IdString(prefix, now, counter);
      IdCounterOfIdString(prefix, now, counter);
    }

    /** `createSession(body)`: one new key in `sessions`, the same key mapped to `[]` in `messages`. */
    method CreateSession(title: Option<string>, parentID: Option<string>, now: nat) returns (s: Session)
      requires Valid()
      modifies this
      ensures Valid()
      ensures counter == old(counter) + 1
      ensures s == NewSession(IdString("session", now, counter), title, parentID, now)
      ensures s.id !in old(sessions)
      ensures sessions == old(sessions)[s.id := s] && order == old(order) + [s.id]
      ensures messages == old(messages)[s.id := []]
      ensures KeepsArchived(old(sessions), sessions) && NewAreIdle(old(sessions), sessions)
    {
      var id := GenerateId("session", now);
      s := NewSession(id, title, parentID, now);
      sessions := sessions[id := s];
      order := order + [id];
      messages := messages[id := []];
    }

    /** `Array.from(sessions.values())`: every session once, in insertion order. */
    function SessionList(): (list: seq<Session>)
      reads this
      requires Valid()
      ensures |list| == |sessions| == |order|
      ensures forall i :: 0 <= i < |order| ==> list[i] == sessions[order[i]]
      ensures forall s :: s in list ==> s.id in sessions && sessions[s.id] == s
      ensures forall k :: k in sessions ==> sessions[k] in list
    {
      var list := ValuesInOrder(order, sessions);
      assert sessions.Keys == set x | x in order;
      DistinctCardinality(order);
      assert forall k :: k in sessions ==> exists i :: 0 <= i < |order| && order[i] == k && list[i] == sessions[k];
      list
    }

    /** POST /session: a body that fails to parse throws before any state changes (500). */
    method PostSession(body: Body, now: nat) returns (reply: Reply)
      requires Valid()
      modifies this
      ensures Valid()
      ensures body.Unparsable? ==> reply == InternalError && unchanged(this)
      ensures !body.Unparsable? ==> SessionPosted(body, now, reply)
      ensures KeepsArchived(old(sessions), sessions) && NewAreIdle(old(sessions), sessions)
    {
      match body
      case Unparsable =>
        reply := InternalError;
      case Null =>
        var s := CreateSession(None, None, now);
        reply := SessionCreated(s);
      case Fields(title, parentID, _, _) =>
        var s := CreateSession(title, parentID, now);
        reply := SessionCreated(s);
    }

    /** GET /session/{id}. */
    method GetSession(id: string) returns (reply: Reply)
      ensures id in sessions ==> reply == SessionBody(sessions[id])
      ensures id !in sessions ==> reply == SessionNotFound
    {
      if id in sessions {
        reply := SessionBody(sessions[id]);
      } else {
        reply := SessionNotFound;
      }
    }

    /**
     * PUT /session/{id}: the lookup comes first, so an unknown id is a 404
     * whatever the body; a body that fails to parse, or `null` (reading
     * `body.title` throws), is a 500 with nothing changed.
     */
    method UpdateSession(id: string, body: Body) returns (reply: Reply)
      requires Valid()
      modifies this`sessions
      ensures Valid()
      ensures id !in old(sessions) ==> reply == SessionNotFound && sessions == old(sessions)
      ensures id in old(sessions) && !body.Fields? ==> reply == InternalError && sessions == old(sessions)
      ensures id in old(sessions) && body.Fields? ==>
        var u := Updated(old(sessions)[id], body.title, body.archived);
        reply == SessionBody(u) && sessions == old(sessions)[id := u]
      ensures KeepsArchived(old(sessions), sessions) && sessions.Keys == old(sessions).Keys
    {
      if id !in sessions {
        reply := SessionNotFound;
        return;
      }
      match body
      case Fields(title, _, archived, _) =>
        var u := Updated(sessions[id], title, archived);
        sessions := sessions[id := u];
        reply := SessionBody(u);
      case _ =>
        reply := InternalError;
    }

    /** DELETE /session/{id}: drop the id from both tables and answer `true`, known or not. */
    method DeleteSession(id: string) returns (reply: Reply)
      requires Valid()
      modifies this`sessions, this`order, this`messages
      ensures Valid()
      ensures reply == DeletedTrue
      ensures sessions == old(sessions) - {id} && messages == old(messages) - {id}
      ensures order == Without(old(order), id)
      ensures KeepsArchived(old(sessions), sessions) && sessions.Keys <= old(sessions).Keys
    {
      sessions := sessions - {id};
      messages := messages - {id};
      order := Without(order, id);
      reply := DeletedTrue;
    }

    /** GET /session/{id}/message: the stored list, or `[]`; no state changes. */
    method ListMessages(id: string) returns (reply: Reply)
      ensures reply == MessagesListed(Stored(messages, id))
      ensures id !in messages ==> reply.messages == []
    {
      var list := if id in messages then messages[id] else [];
      reply := MessagesListed(list);
    }

    /** `sessionMessages.push(m); messages.set(id, sessionMessages)` for a message made with an issued id. */
    method Append(id: string, m: Message)
      requires Valid() && Issued(m.id, counter)
      modifies this`messages
      ensures Valid()
      ensures messages == old(messages)[id := Stored(old(messages), id) + [m]]
    {
      var list := Stored(messages, id) + [m];
      assert forall i :: 0 <= i < |list| - 1 ==> list[i] == Stored(messages, id)[i];
      messages := messages[id := list];
    }

    /** The assistant half of POST /session/{id}/message: a fresh id, then the reply appended. */
    method AppendReply(id: string, content: Option<string>, now: nat)
      requires Valid()
      modifies this`counter, this`messages
      ensures Valid()
      ensures counter == old(counter) + 1
      ensures messages == old(messages)[id := Stored(old(messages), id) +
        [AssistantMessage(IdString("msg", now, counter), id, content, now)]]
    {
      var replyId := GenerateId("msg", now);
      Append(id, AssistantMessage(replyId, id, content, now));
    }

    /**
     * The rest of POST /session/{id}/message once the user message has its
     * id: store it, then the reply after it under a second id.
     */
    method RecordExchange(id: string, userId: string, content: Option<string>, now: nat) returns (user: Message)
      requires Valid() && IdCounter(userId) == Some(counter)
      modifies this`counter, this`messages
      ensures Valid()
      ensures counter == old(counter) + 1
      ensures user == UserMessage(userId, id, content, now)
      ensures messages == old(messages)[id := Stored(old(messages), id) +
        [user, AssistantMessage(IdString("msg", now, counter), id, content, now)]]
    {
      ghost var before := Stored(messages, id);
      user := UserMessage(userId, id, content, now);
      Append(id, user);
      ghost var middle := messages;
      assert Stored(middle, id) == before + [user];
      AppendReply(id, content, now);
      ghost var assistant := AssistantMessage(IdString("msg", now, counter), id, content, now);
      assert before + [user] + [assistant] == before + [user, assistant];
      assert messages == middle[id := before + [user, assistant]];
    }

    /**
     * POST /session/{id}/message: append a user and an assistant message and
     * answer with the user message. The session table is not consulted, so an
     * unknown id gets a message list of its own. With a `null` body the first
     * `generateId` has already run when reading `body.content` throws.
     */
    method PostMessage(id: string, body: Body, now: nat) returns (reply: Reply)
      requires Valid()
      modifies this`counter, this`messages
      ensures Valid()
      ensures body.Unparsable? ==> reply == InternalError && counter == old(counter) && messages == old(messages)
      ensures body.Null? ==> reply == InternalError && counter == old(counter) + 1 && messages == old(messages)
      ensures body.Fields? ==> MessagesPosted(id, body.content, now, reply)
      ensures body.Fields? ==>
        var userId := IdString("msg", now, old(counter) + 1);
        var replyId := IdString("msg", now, old(counter) + 2);
        userId != replyId && !Issued(userId, old(counter)) && !Issued(replyId, old(counter))
    {
      if body.Unparsable? {
        reply := InternalError;
        return;
      }
      var messageId := GenerateId("msg", now);
      if body.Null? {
        reply := InternalError;
        return;
      }
      var user := RecordExchange(id, messageId, body.content, now);
      IdsDistinct("msg", now, counter - 1, "msg", now, counter);
      IdCounterOfIdString("msg", now, counter);
      reply := MessageCreated(user);
    }

    /** GET /sessionStatus: the `for` loop over `sessions` building `statusMap`. */
    method StatusMap() returns (statuses: map<string, Status>)
      requires Valid()
      ensures statuses.Keys == sessions.Keys
      ensures forall k :: k in statuses ==> statuses[k] == sessions[k].status
    {
      statuses := map[];
      for i := 0 to |order|
        invariant forall k :: k in statuses ==> k in sessions && statuses[k] == sessions[k].status
        invariant forall j :: 0 <= j < i ==> order[j] in statuses
      {
        var k := order[i];
        statuses := statuses[k := sessions[k].status];
      }
    }

    /** The branches of `handleRequest` that only read the tables. */
    method DispatchRead(route: Route) returns (reply: Reply)
      requires Valid() && !ChangesState(route)
      ensures route.OptionsRoute? ==> reply == NoContent
      ensures route.HealthRoute? ==> reply == HealthOk
      ensures route.ConfigRoute? ==> reply == ConfigBody
      ensures route.ProjectRoute? ==> reply == ProjectList
      ensures route.UnknownRoute? ==> reply == RouteNotFound(route.path)
      ensures reply.SessionNotFound? || reply.RouteNotFound? ==>
        route.UnknownRoute? || (route.SessionGetRoute? && route.id !in sessions)
      ensures route.SessionListRoute? ==> reply == SessionListed(SessionList())
      ensures route.SessionGetRoute? ==>
        reply == if route.id in sessions then SessionBody(sessions[route.id]) else SessionNotFound
      ensures route.MessageListRoute? ==> reply == MessagesListed(Stored(messages, route.id))
      ensures route.SessionStatusRoute? ==>
        reply.StatusBody? && reply.statuses.Keys == sessions.Keys &&
        forall k :: k in reply.statuses ==> reply.statuses[k] == sessions[k].status
    {
      match route
      case OptionsRoute => reply := NoContent;
      case HealthRoute => reply := HealthOk;
      case SessionListRoute => reply := SessionListed(SessionList());
      case SessionGetRoute(id) => reply := GetSession(id);
      case MessageListRoute(id) => reply := ListMessages(id);
      case ConfigRoute => reply := ConfigBody;
      case ProjectRoute => reply := ProjectList;
      case SessionStatusRoute =>
        var statuses := StatusMap();
        reply := StatusBody(statuses);
      case UnknownRoute(p) => reply := RouteNotFound(p);
    }

    /** The branches of `handleRequest` that may change the tables. */
    method DispatchWrite(route: Route, body: Body, now: nat) returns (reply: Reply)
      requires Valid() && ChangesState(route)
      modifies this
      ensures Valid()
      ensures !reply.RouteNotFound? && (reply.SessionNotFound? ==> route.SessionPutRoute? && route.id !in old(sessions))
      ensures route.SessionPutRoute? && route.id !in old(sessions) ==> reply == SessionNotFound && unchanged(this)
      ensures route.SessionCreateRoute? && body.Unparsable? ==> reply == InternalError && unchanged(this)
      ensures route.SessionCreateRoute? && !body.Unparsable? ==> SessionPosted(body, now, reply)
      ensures route.SessionPutRoute? && route.id in old(sessions) && body.Fields? ==>
        var u := Updated(old(sessions)[route.id], body.title, body.archived);
        && reply == SessionBody(u) && sessions == old(sessions)[route.id := u]
        && order == old(order) && messages == old(messages) && counter == old(counter)
      ensures route.SessionPutRoute? && route.id in old(sessions) && !body.Fields? ==>
        reply == InternalError && unchanged(this)
      ensures route.SessionDeleteRoute? ==>
        && reply == DeletedTrue && sessions == old(sessions) - {route.id} && messages == old(messages) - {route.id}
        && order == Without(old(order), route.id) && counter == old(counter)
      ensures route.MessagePostRoute? ==> sessions == old(sessions) && order == old(order)
      ensures route.MessagePostRoute? && body.Unparsable? ==>
        reply == InternalError && counter == old(counter) && messages == old(messages)
      ensures route.MessagePostRoute? && body.Null? ==>
        reply == InternalError && counter == old(counter) + 1 && messages == old(messages)
      ensures route.MessagePostRoute? && body.Fields? ==>
        MessagesPosted(route.id, body.content, now, reply)
      ensures KeepsArchived(old(sessions), sessions) && NewAreIdle(old(sessions), sessions)
    {
      match route
      case SessionCreateRoute => reply := PostSession(body, now);
      case SessionPutRoute(id) => reply := UpdateSession(id, body);
      case SessionDeleteRoute(id) => reply := DeleteSession(id);
      case MessagePostRoute(id) => reply := PostMessage(id, body, now);
    }

    /** The branch of `handleRequest` a classified request runs; every branch answers. */
    method Dispatch(route: Route, body: Body, now: nat) returns (reply: Reply)
      requires Valid()
      modifies this
      ensures Valid()
      ensures !ChangesState(route) ==> unchanged(this)
      ensures route.OptionsRoute? ==> reply == NoContent
      ensures route.HealthRoute? ==> reply == HealthOk
      ensures route.ConfigRoute? ==> reply == ConfigBody
      ensures route.ProjectRoute? ==> reply == ProjectList
      ensures route.UnknownRoute? ==> reply == RouteNotFound(route.path)
      ensures reply.SessionNotFound? || reply.RouteNotFound? ==>
        route.UnknownRoute? || ((route.SessionGetRoute? || route.SessionPutRoute?) && route.id !in old(sessions))
      ensures (route.SessionGetRoute? || route.SessionPutRoute?) && route.id !in old(sessions) ==>
        reply == SessionNotFound && unchanged(this)
      ensures route.SessionListRoute? ==> reply == SessionListed(SessionList())
      ensures route.SessionCreateRoute? && body.Unparsable? ==> reply == InternalError && unchanged(this)
      ensures route.SessionCreateRoute? && !body.Unparsable? ==> SessionPosted(body, now, reply)
      ensures route.SessionGetRoute? && route.id in old(sessions) ==> reply == SessionBody(old(sessions)[route.id])
      ensures route.SessionPutRoute? && route.id in old(sessions) && body.Fields? ==>
        var u := Updated(old(sessions)[route.id], body.title, body.archived);
        && reply == SessionBody(u) && sessions == old(sessions)[route.id := u]
        && order == old(order) && messages == old(messages) && counter == old(counter)
      ensures route.SessionPutRoute? && route.id in old(sessions) && !body.Fields? ==>
        reply == InternalError && unchanged(this)
      ensures route.SessionDeleteRoute? ==>
        && reply == DeletedTrue && sessions == old(sessions) - {route.id} && messages == old(messages) - {route.id}
        && order == Without(old(order), route.id) && counter == old(counter)
      ensures route.MessageListRoute? ==> reply == MessagesListed(Stored(messages, route.id))
      ensures route.MessagePostRoute? ==> sessions == old(sessions) && order == old(order)
      ensures route.MessagePostRoute? && body.Unparsable? ==>
        reply == InternalError && counter == old(counter) && messages == old(messages)
      ensures route.MessagePostRoute? && body.Null? ==>
        reply == InternalError && counter == old(counter) + 1 && messages == old(messages)
      ensures route.MessagePostRoute? && body.Fields? ==>
        MessagesPosted(route.id, body.content, now, reply)
      ensures route.SessionStatusRoute? ==>
        reply.StatusBody? && reply.statuses.Keys == sessions.Keys &&
        forall k :: k in reply.statuses ==> reply.statuses[k] == sessions[k].status
      ensures KeepsArchived(old(sessions), sessions) && NewAreIdle(old(sessions), sessions)
    {
      if ChangesState(route) {
        reply := DispatchWrite(route, body, now);
      } else {
        reply := DispatchRead(route);
      }
    }

    /**
     * `handleRequest` on `/session/{id}`: GET and PUT look the id up first,
     * DELETE drops it, and any other method but OPTIONS falls through to 404.
     */
    method HandleSessionUrl(httpMethod: string, id: string, body: Body, now: nat) returns (reply: Reply)
      requires Valid() && IsIdSegment(id)
      modifies this
      ensures Valid()
      ensures KeepsArchived(old(sessions), sessions) && NewAreIdle(old(sessions), sessions)
      ensures httpMethod == "OPTIONS" ==> reply == NoContent && unchanged(this)
      ensures (httpMethod == "GET" || httpMethod == "PUT") && id !in old(sessions) ==>
        reply == SessionNotFound && unchanged(this)
      ensures httpMethod == "GET" && id in old(sessions) ==> reply == SessionBody(old(sessions)[id]) && unchanged(this)
      ensures httpMethod == "PUT" && id in old(sessions) && body.Fields? ==>
        var u := Updated(old(sessions)[id], body.title, body.archived);
        && reply == SessionBody(u) && sessions == old(sessions)[id := u] && messages == old(messages)
        && order == old(order) && counter == old(counter)
      ensures httpMethod == "PUT" && id in old(sessions) && !body.Fields? ==> reply == InternalError && unchanged(this)
      ensures httpMethod == "DELETE" ==>
        && reply == DeletedTrue && sessions == old(sessions) - {id} && messages == old(messages) - {id}
        && order == Without(old(order), id) && counter == old(counter)
      ensures !(httpMethod in {"OPTIONS", "GET", "PUT", "DELETE"}) ==>
        reply == RouteNotFound(SessionPath(id)) && unchanged(this)
    {
      SessionUrlMatches(id);
      ClassifySessionUrl(id);
      reply := Dispatch(Classify(httpMethod, SessionPath(id)), body, now);
    }

    /**
     * `handleRequest` on `/session/{id}/message`: GET lists, POST appends,
     * and any other method but OPTIONS falls through to 404.
     */
    method HandleMessageUrl(httpMethod: string, id: string, body: Body, now: nat) returns (reply: Reply)
      requires Valid() && IsIdSegment(id)
      modifies this
      ensures Valid()
      ensures KeepsArchived(old(sessions), sessions) && NewAreIdle(old(sessions), sessions)
      ensures httpMethod == "OPTIONS" ==> reply == NoContent && unchanged(this)
      ensures httpMethod == "GET" ==> reply == MessagesListed(Stored(messages, id)) && unchanged(this)
      ensures httpMethod == "POST" && body.Fields? ==>
        MessagesPosted(id, body.content, now, reply) && sessions == old(sessions) && order == old(order)
      ensures httpMethod == "POST" && !body.Fields? ==>
        && reply == InternalError && sessions == old(sessions) && order == old(order) && messages == old(messages)
        && counter == old(counter) + (if body.Null? then 1 else 0)
      ensures !(httpMethod in {"OPTIONS", "GET", "POST"}) ==>
        reply == RouteNotFound(MessagePath(id)) && unchanged(this)
    {
      MessageUrlMatches(id);
      ClassifyMessageUrl(id);
      reply := Dispatch(Classify(httpMethod, MessagePath(id)), body, now);
    }

    /** `handleRequest` on a path that neither id pattern matches: the fixed routes that touch the tables. */
    method HandleFixedPath(httpMethod: string, path: string, body: Body, now: nat) returns (reply: Reply)
      requires Valid() && MatchSession(path).None? && MatchMessages(path).None?
      modifies this
      ensures Valid()
      ensures KeepsArchived(old(sessions), sessions) && NewAreIdle(old(sessions), sessions)
      ensures httpMethod == "OPTIONS" ==> reply == NoContent && unchanged(this)
      ensures httpMethod == "GET" && path == "/sessionStatus" ==>
        && reply.StatusBody? && reply.statuses.Keys == sessions.Keys && unchanged(this)
        && forall k :: k in reply.statuses ==> reply.statuses[k] == sessions[k].status
      ensures httpMethod == "GET" && path == "/session" ==> reply == SessionListed(SessionList()) && unchanged(this)
      ensures httpMethod == "POST" && path == "/session" ==>
        && (body.Unparsable? ==> reply == InternalError && unchanged(this))
        && (!body.Unparsable? ==> SessionPosted(body, now, reply))
      ensures httpMethod != "OPTIONS" && !IsHandled(httpMethod, path) ==> reply == RouteNotFound(path) && unchanged(this)
      ensures httpMethod != "OPTIONS" && path == "/global/health" ==> reply == HealthOk && unchanged(this)
      ensures httpMethod == "GET" && path == "/config" ==> reply == ConfigBody && unchanged(this)
      ensures httpMethod == "GET" && path == "/project" ==> reply == ProjectList && unchanged(this)
    {
      ClassifyFixedPaths();
      reply := Dispatch(Classify(httpMethod, path), body, now);
    }

    /**
     * `handleRequest`: classify the request, then run its branch. Stated for
     * the fixed paths with state and for the URLs a client builds from an id.
     */
    method HandleRequest(httpMethod: string, path: string, body: Body, now: nat) returns (reply: Reply)
      requires Valid()
      modifies this
      ensures Valid()
      ensures KeepsArchived(old(sessions), sessions) && NewAreIdle(old(sessions), sessions)
      ensures httpMethod == "OPTIONS" ==> reply == NoContent && unchanged(this)
      ensures httpMethod == "GET" && path == "/sessionStatus" ==>
        && reply.StatusBody? && reply.statuses.Keys == sessions.Keys && unchanged(this)
        && forall k :: k in reply.statuses ==> reply.statuses[k] == sessions[k].status
      ensures httpMethod == "GET" && path == "/session" ==> reply == SessionListed(SessionList()) && unchanged(this)
      ensures httpMethod == "POST" && path == "/session" ==>
        && (body.Unparsable? ==> reply == InternalError && unchanged(this))
        && (!body.Unparsable? ==> SessionPosted(body, now, reply))
      ensures httpMethod != "OPTIONS" && !IsHandled(httpMethod, path) ==> reply == RouteNotFound(path) && unchanged(this)
      ensures httpMethod != "OPTIONS" && path == "/global/health" ==> reply == HealthOk && unchanged(this)
      ensures httpMethod == "GET" && path == "/config" ==> reply == ConfigBody && unchanged(this)
      ensures httpMethod == "GET" && path == "/project" ==> reply == ProjectList && unchanged(this)
      ensures forall id :: (IsIdSegment(id) && path == SessionPath(id) && id !in old(sessions) &&
        (httpMethod == "GET" || httpMethod == "PUT")) ==> reply == SessionNotFound && unchanged(this)
      ensures forall id :: (IsIdSegment(id) && path == SessionPath(id) && id in old(sessions) && httpMethod == "GET") ==>
        reply == SessionBody(old(sessions)[id]) && unchanged(this)
      ensures forall id :: (IsIdSegment(id) && path == SessionPath(id) && id in old(sessions) && httpMethod == "PUT") ==>
        && (body.Fields? ==>
              var u := Updated(old(sessions)[id], body.title, body.archived);
              && reply == SessionBody(u) && sessions == old(sessions)[id := u] && messages == old(messages)
              && order == old(order) && counter == old(counter))
        && (!body.Fields? ==> reply == InternalError && unchanged(this))
      ensures forall id :: (IsIdSegment(id) && path == SessionPath(id) && httpMethod == "DELETE") ==>
        && reply == DeletedTrue && sessions == old(sessions) - {id} && messages == old(messages) - {id}
        && order == Without(old(order), id) && counter == old(counter)
      ensures forall id :: (IsIdSegment(id) && path == MessagePath(id) && httpMethod == "GET") ==>
        reply == MessagesListed(Stored(messages, id)) && unchanged(this)
      ensures forall id :: (IsIdSegment(id) && path == MessagePath(id) && httpMethod == "POST" && body.Fields?) ==>
        MessagesPosted(id, body.content, now, reply) && sessions == old(sessions) && order == old(order)
      ensures forall id :: (IsIdSegment(id) && path == MessagePath(id) && httpMethod == "POST" && !body.Fields?) ==>
        && reply == InternalError && sessions == old(sessions) && order == old(order) && messages == old(messages)
        && counter == old(counter) + (if body.Null? then 1 else 0)
    {
      var session := MatchSession(path);
      var list := MatchMessages(path);
      if session.Some? {
        SessionUrlMatches(session.value);
        reply := HandleSessionUrl(httpMethod, session.value, body, now);
      } else if list.Some? {
        MessageUrlMatches(list.value);
        reply := HandleMessageUrl(httpMethod, list.value, body, now);
      } else {
        reply := HandleFixedPath(httpMethod, path, body, now);
      }
    }
  }
}
