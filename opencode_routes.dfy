/**
 * Route classification of the session mock (test/mock_opencode_server.ts,
 * `handleRequest`): the `(method, path)` tests in the order the handler makes
 * them, including the anchored patterns `^\/session\/[\w-]+$` and
 * `^\/session\/[\w-]+\/message$` and the id taken as `path.split('/')[2]`.
 */
module OpencodeRoutes {
  import opened Wrappers
  import opened Text

  /** `[\w-]`: an ASCII letter, digit, underscore or hyphen. */
  predicate IsIdChar(c: char) {
    ('a' <= c <= 'z') || ('A' <= c <= 'Z') || ('0' <= c <= '9') || c == '_' || c == '-'
  }

  /** `[\w-]+`. */
  predicate IsIdSegment(s: string) {
    |s| >= 1 && forall i :: 0 <= i < |s| ==> IsIdChar(s[i])
  }

  const SessionRoot := "/session/"
  const MessageSuffix := "/message"

  function SessionPath(id: string): string { SessionRoot + id }

  function MessagePath(id: string): string { SessionRoot + id + MessageSuffix }

  /** `path.split('/')[2]`, or "" when there are fewer pieces (never the case on a matched path). */
  function ThirdPiece(path: string): string {
    var pieces := Split(path, '/');
    if |pieces| > 2 then pieces[2] else ""
  }

  lemma SegmentHasNoSlash(id: string)
    requires IsIdSegment(id)
    ensures '/' !in id
  {
  }

  /** The piece after `/session/` is the third piece of the split. */
  lemma ThirdPieceOfSessionPath(id: string, rest: string)
    requires '/' !in id
    ensures ThirdPiece(SessionRoot + id + rest) == Split(id + rest, '/')[0]
  {
    var s := SessionRoot + id + rest;
    assert s == [] + ['/'] + ("session" + ['/'] + (id + rest));
    SplitAround([], "session" + ['/'] + (id + rest), '/');
    SplitAround("session", id + rest, '/');
    SplitWithoutSeparator("session", '/');
  }

  /** `split('/')[2]` of a session URL is its id. */
  lemma ThirdPieceOfSession(id: string)
    requires IsIdSegment(id)
    ensures ThirdPiece(SessionPath(id)) == id
  {
    SegmentHasNoSlash(id);
    ThirdPieceOfSessionPath(id, "");
    assert SessionRoot + id + "" == SessionPath(id) && id + "" == id;
    SplitWithoutSeparator(id, '/');
  }

  /** `split('/')[2]` of a message URL is its id. */
  lemma ThirdPieceOfMessages(id: string)
    requires IsIdSegment(id)
    ensures ThirdPiece(MessagePath(id)) == id
  {
    SegmentHasNoSlash(id);
    ThirdPieceOfSessionPath(id, MessageSuffix);
    SplitAround(id, "message", '/');
    assert id + MessageSuffix == id + ['/'] + "message";
    SplitWithoutSeparator(id, '/');
  }

  /** `path.match(/^\/session\/[\w-]+$/)` and the id it yields. */
  function MatchSession(path: string): (r: Option<string>)
    ensures r.Some? ==> IsIdSegment(r.value) && path == SessionPath(r.value)
    ensures forall id :: IsIdSegment(id) && path == SessionPath(id) ==> r == Some(id)
  {
    var n := |SessionRoot|;
    if |path| > n && path[..n] == SessionRoot && IsIdSegment(path[n..]) then
      var id := path[n..];
      assert path == SessionPath(id);
      ThirdPieceOfSession(id);
      Some(ThirdPiece(path))
    else
      assert forall id :: IsIdSegment(id) && path == SessionPath(id) ==> path[n..] == id;
      None
  }

  /** `path.match(/^\/session\/[\w-]+\/message$/)` and the id it yields. */
  function MatchMessages(path: string): (r: Option<string>)
    ensures r.Some? ==> IsIdSegment(r.value) && path == MessagePath(r.value)
    ensures forall id :: IsIdSegment(id) && path == MessagePath(id) ==> r == Some(id)
  {
    var n := |SessionRoot|;
    var m := |MessageSuffix|;
    if |path| > n + m && path[..n] == SessionRoot && path[|path| - m..] == MessageSuffix
       && IsIdSegment(path[n..|path| - m]) then
      var id := path[n..|path| - m];
      assert path == MessagePath(id);
      ThirdPieceOfMessages(id);
      Some(ThirdPiece(path))
    else
      assert forall id :: IsIdSegment(id) && path == MessagePath(id) ==> path[n..|path| - m] == id;
      None
  }

  /** The handler a request reaches. */
  datatype Route =
    | OptionsRoute
    | HealthRoute
    | SessionListRoute
    | SessionCreateRoute
    | SessionGetRoute(id: string)
    | SessionPutRoute(id: string)
    | SessionDeleteRoute(id: string)
    | MessageListRoute(id: string)
    | MessagePostRoute(id: string)
    | ConfigRoute
    | ProjectRoute
    | SessionStatusRoute
    | UnknownRoute(path: string)

  /** The `(method, path)` pairs some branch of `handleRequest` answers, OPTIONS aside. */
  predicate IsHandled(httpMethod: string, path: string) {
    || path == "/global/health"
    || (path == "/session" && (httpMethod == "GET" || httpMethod == "POST"))
    || (MatchSession(path).Some? && (httpMethod == "GET" || httpMethod == "PUT" || httpMethod == "DELETE"))
    || (MatchMessages(path).Some? && (httpMethod == "GET" || httpMethod == "POST"))
    || (httpMethod == "GET" && (path == "/config" || path == "/project" || path == "/sessionStatus"))
  }

  /** The `if` chain of `handleRequest`, first match wins. */
  function Classify(httpMethod: string, path: string): (r: Route)
    ensures httpMethod == "OPTIONS" ==> r == OptionsRoute
    ensures httpMethod != "OPTIONS" && path == "/global/health" ==> r == HealthRoute
    ensures (r.SessionGetRoute? || r.SessionPutRoute? || r.SessionDeleteRoute?) ==>
      IsIdSegment(r.id) && path == SessionPath(r.id)
    ensures (r.MessageListRoute? || r.MessagePostRoute?) ==>
      IsIdSegment(r.id) && path == MessagePath(r.id)
    ensures r.UnknownRoute? ==> r.path == path
    ensures r.UnknownRoute? <==> httpMethod != "OPTIONS" && !IsHandled(httpMethod, path)
  {
    if httpMethod == "OPTIONS" then OptionsRoute
    else if path == "/global/health" then HealthRoute
    else if path == "/session" && httpMethod == "GET" then SessionListRoute
    else if path == "/session" && httpMethod == "POST" then SessionCreateRoute
    else if MatchSession(path).Some? && httpMethod == "GET" then SessionGetRoute(MatchSession(path).value)
    else if MatchSession(path).Some? && httpMethod == "PUT" then SessionPutRoute(MatchSession(path).value)
    else if MatchSession(path).Some? && httpMethod == "DELETE" then SessionDeleteRoute(MatchSession(path).value)
    else if MatchMessages(path).Some? && httpMethod == "GET" then MessageListRoute(MatchMessages(path).value)
    else if MatchMessages(path).Some? && httpMethod == "POST" then MessagePostRoute(MatchMessages(path).value)
    else if path == "/config" && httpMethod == "GET" then ConfigRoute
    else if path == "/project" && httpMethod == "GET" then ProjectRoute
    else if path == "/sessionStatus" && httpMethod == "GET" then SessionStatusRoute
    else UnknownRoute(path)
  }

  /** A session URL matches the first pattern only, and none of the fixed paths. */
  lemma SessionUrlMatches(id: string)
    requires IsIdSegment(id)
    ensures MatchSession(SessionPath(id)) == Some(id)
    ensures MatchMessages(SessionPath(id)).None?
    ensures SessionPath(id) !in {"/global/health", "/session", "/config", "/project", "/sessionStatus"}
  {
    var n := |SessionRoot|;
    var s := SessionPath(id);
    // the layout of the path, and the characters that tell it from the fixed paths
    assert s[..n] == SessionRoot && s[n..] == id;
    assert s[1] == 's' && s[8] == '/' && |s| > |"/session"|;
  }

  /** A message URL matches the second pattern only, and none of the fixed paths. */
  lemma MessageUrlMatches(id: string)
    requires IsIdSegment(id)
    ensures MatchMessages(MessagePath(id)) == Some(id)
    ensures MatchSession(MessagePath(id)).None?
    ensures MessagePath(id) !in {"/global/health", "/session", "/config", "/project", "/sessionStatus"}
  {
  }

  /**
   * Built paths classify back to their id: for an id of `[\w-]+`, the session
   * URL reaches the GET, PUT and DELETE handlers, and POST falls through to 404.
   */
  lemma ClassifySessionUrl(id: string)
    requires IsIdSegment(id)
    ensures Classify("GET", SessionPath(id)) == SessionGetRoute(id)
    ensures Classify("PUT", SessionPath(id)) == SessionPutRoute(id)
    ensures Classify("DELETE", SessionPath(id)) == SessionDeleteRoute(id)
    ensures Classify("POST", SessionPath(id)) == UnknownRoute(SessionPath(id))
  {
    SessionUrlMatches(id);
  }

  /** The message URL reaches the GET and POST handlers, and DELETE falls through to 404. */
  lemma ClassifyMessageUrl(id: string)
    requires IsIdSegment(id)
    ensures Classify("GET", MessagePath(id)) == MessageListRoute(id)
    ensures Classify("POST", MessagePath(id)) == MessagePostRoute(id)
    ensures Classify("DELETE", MessagePath(id)) == UnknownRoute(MessagePath(id))
  {
    MessageUrlMatches(id);
  }

  /** The fixed paths reach their handlers; none of them is taken for a session URL. */
  lemma ClassifyFixedPaths()
    ensures Classify("GET", "/session") == SessionListRoute
    ensures Classify("POST", "/session") == SessionCreateRoute
    ensures Classify("GET", "/config") == ConfigRoute
    ensures Classify("GET", "/project") == ProjectRoute
    ensures Classify("GET", "/sessionStatus") == SessionStatusRoute
    ensures Classify("POST", "/sessionStatus") == UnknownRoute("/sessionStatus")
  {
    assert "/sessionStatus"[..|SessionRoot|] != SessionRoot by {
      assert "/sessionStatus"[8] == 'S';
    }
    assert MatchMessages("/sessionStatus").None? by {
      assert "/sessionStatus"[|"/sessionStatus"| - |MessageSuffix|..] != MessageSuffix;
    }
  }
}
