/** The chat_sessions and chat_messages tables of backend/main.py and the
    endpoints that read and write them: get_or_create_session, the chat
    endpoint, the session listing and the conversation fetch. */
module BackendStore {
  import opened Wrappers
  import Text
  import opened BackendErrors
  import BackendAi
  import BackendAuth

  /** A row of chat_sessions; the timestamps are instants on an abstract clock. */
  datatype SessionRow = SessionRow(id: string, userId: string, createdAt: int, updatedAt: int)

  /** A row of chat_messages. */
  datatype MessageRow = MessageRow(id: string, sessionId: string, role: string, content: string)

  /** `SELECT count(*) FROM chat_messages WHERE session_id = sid`. */
  function MessageCount(messages: seq<MessageRow>, sid: string): nat
  {
    if messages == [] then 0
    else (if messages[0].sessionId == sid then 1 else 0) + MessageCount(messages[1..], sid)
  }

  /** The messages of one session, in the order they were inserted. */
  function SessionMessages(messages: seq<MessageRow>, sid: string): (r: seq<MessageRow>)
    ensures |r| == MessageCount(messages, sid)
  {
    if messages == [] then []
    else (if messages[0].sessionId == sid then [messages[0]] else []) + SessionMessages(messages[1..], sid)
  }

  /** The session's messages are exactly the stored messages with its id. */
  lemma {:induction false} SessionMessagesMembers(messages: seq<MessageRow>, sid: string)
    ensures forall m :: m in SessionMessages(messages, sid) <==> m in messages && m.sessionId == sid
  {
    if messages != [] {
      SessionMessagesMembers(messages[1..], sid);
      assert messages == [messages[0]] + messages[1..];
    }
  }

  lemma {:induction false} SessionMessagesAppend(messages: seq<MessageRow>, m: MessageRow, sid: string)
    ensures SessionMessages(messages + [m], sid)
      == SessionMessages(messages, sid) + (if m.sessionId == sid then [m] else [])
  {
    if messages != [] {
      assert (messages + [m])[1..] == messages[1..] + [m];
      SessionMessagesAppend(messages[1..], m, sid);
      Text.AppendAssoc(if messages[0].sessionId == sid then [messages[0]] else [], SessionMessages(messages[1..], sid),
                       if m.sessionId == sid then [m] else []);
    }
  }

  // ---------------------------------------------------------------------------
  // Ordering by id (PostgreSQL `ORDER BY ... id` on a text column)

  /** Lexicographic order on strings, by code point. */
  predicate StrLe(a: string, b: string)
  {
    a == [] || (b != [] && (a[0] < b[0] || (a[0] == b[0] && StrLe(a[1..], b[1..]))))
  }

  lemma {:induction false} StrLeTotal(a: string, b: string)
    ensures StrLe(a, b) || StrLe(b, a)
  {
    if a != [] && b != [] && a[0] == b[0] {
      StrLeTotal(a[1..], b[1..]);
    }
  }

  predicate SortedById(s: seq<MessageRow>)
  {
    |s| <= 1 || (StrLe(s[0].id, s[1].id) && SortedById(s[1..]))
  }

  /** Inserts m into a list sorted by id, after the rows with an equal id. */
  function InsertById(m: MessageRow, s: seq<MessageRow>): (r: seq<MessageRow>)
    ensures multiset(r) == multiset(s) + multiset{m}
    ensures r != [] && (r[0] == m || (s != [] && r[0] == s[0]))
    ensures SortedById(s) ==> SortedById(r)
  {
    if s == [] then [m]
    else if !StrLe(s[0].id, m.id) then
      StrLeTotal(m.id, s[0].id);
      assert ([m] + s)[1..] == s;
      [m] + s
    else
      var t := InsertById(m, s[1..]);
      assert s == [s[0]] + s[1..];
      assert SortedById(s) ==> SortedById([s[0]] + t) by {
        if SortedById(s) && |s| > 1 {
          StrLeTotal(m.id, s[0].id);
          assert ([s[0]] + t)[1..] == t;
        }
      }
      [s[0]] + t
  }

  /** The rows ordered by id, ties in their original order. */
  function SortById(s: seq<MessageRow>): (r: seq<MessageRow>)
    ensures multiset(r) == multiset(s)
    ensures SortedById(r)
  {
    if s == [] then []
    else
      assert s == [s[0]] + s[1..];
      InsertById(s[0], SortById(s[1..]))
  }

  // ---------------------------------------------------------------------------
  // Listing of sessions

  /** One entry of the `/sessions/{user_id}` answer. */
  datatype SessionSummary = SessionSummary(id: string, createdAt: int, updatedAt: int, messageCount: nat)

  function Summary(row: SessionRow, messages: seq<MessageRow>): SessionSummary
  {
    SessionSummary(row.id, row.createdAt, row.updatedAt, MessageCount(messages, row.id))
  }

  /** `ORDER BY updated_at DESC`. */
  predicate SortedByUpdatedDesc(s: seq<SessionSummary>)
  {
    |s| <= 1 || (s[0].updatedAt >= s[1].updatedAt && SortedByUpdatedDesc(s[1..]))
  }

  function IdsOf(s: seq<SessionSummary>): set<string>
  {
    if s == [] then {} else {s[0].id} + IdsOf(s[1..])
  }

  predicate DistinctIds(s: seq<SessionSummary>)
  {
    s == [] || (s[0].id !in IdsOf(s[1..]) && DistinctIds(s[1..]))
  }

  /** Inserts x into a list sorted by updatedAt, newest first. */
  function InsertByUpdated(x: SessionSummary, s: seq<SessionSummary>): (r: seq<SessionSummary>)
    ensures forall y :: y in r <==> y == x || y in s
    ensures IdsOf(r) == IdsOf(s) + {x.id}
    ensures r != [] && (r[0] == x || (s != [] && r[0] == s[0]))
    ensures SortedByUpdatedDesc(s) ==> SortedByUpdatedDesc(r)
    ensures DistinctIds(s) && x.id !in IdsOf(s) ==> DistinctIds(r)
  {
    if s == [] || x.updatedAt >= s[0].updatedAt then [x] + s
    else
      var t := InsertByUpdated(x, s[1..]);
      assert s == [s[0]] + s[1..];
      assert ([s[0]] + t)[1..] == t;
      [s[0]] + t
  }

  /** The answer to `/chat`. */
  datatype ChatReply = ChatReply(reply: string, timestamp: string, sessionId: string, tokensUsed: int)

  /** The body of a `/chat` request. */
  datatype ChatRequest = ChatRequest(
    message: string,
    conversationHistory: Option<seq<BackendAi.HistoryMessage>>,
    sessionId: Option<string>)

  /** One entry of the `/conversation/{session_id}` answer; the id of the row
      stands in for its timestamp. */
  datatype ConversationEntry = ConversationEntry(role: string, content: string, timestamp: string)

  function Entries(rows: seq<MessageRow>): (r: seq<ConversationEntry>)
    ensures |r| == |rows|
    ensures forall k :: 0 <= k < |rows| ==>
      r[k] == ConversationEntry(rows[k].role, rows[k].content, rows[k].id)
  {
    if rows == [] then []
    else [ConversationEntry(rows[0].role, rows[0].content, rows[0].id)] + Entries(rows[1..])
  }

  lemma {:induction false} EntriesAppend(rows: seq<MessageRow>, m: MessageRow)
    ensures Entries(rows + [m]) == Entries(rows) + [ConversationEntry(m.role, m.content, m.id)]
  {
    if rows != [] {
      assert (rows + [m])[1..] == rows[1..] + [m];
      EntriesAppend(rows[1..], m);
      Text.AppendAssoc([ConversationEntry(rows[0].role, rows[0].content, rows[0].id)], Entries(rows[1..]),
                       [ConversationEntry(m.role, m.content, m.id)]);
    }
  }

  /** The loop of get_conversation that turns each row into a
      `{role, content, timestamp}` entry, in order. */
  method FormatEntries(rows: seq<MessageRow>) returns (conversation: seq<ConversationEntry>)
    ensures conversation == Entries(rows)
  {
    conversation := [];
    var i := 0;
    while i < |rows|
      invariant 0 <= i <= |rows|
      invariant conversation == Entries(rows[..i])
    {
      EntriesAppend(rows[..i], rows[i]);
      assert rows[..i + 1] == rows[..i] + [rows[i]];
      conversation := conversation + [ConversationEntry(rows[i].role, rows[i].content, rows[i].id)];
      i := i + 1;
    }
    assert rows[..i] == rows;
  }

  const SessionNotFound := Raise(404, "Session not found")
  const FetchFailed := Raise(500, "Failed to fetch conversation")

  /** get_conversation as written: empty without a database; the conversation
      of a session the caller owns in id order; and for a missing or foreign
      session the 404 raised inside the try is caught by the broad handler and
      replaced by a 500. */
  function Conversation(connected: bool, sessions: map<string, SessionRow>, messages: seq<MessageRow>,
                        callerId: string, sessionId: string): (r: Result<seq<ConversationEntry>, HttpError>)
    ensures !connected ==> r == Ok([])
    ensures r.Err? <==> connected && (sessionId !in sessions || sessions[sessionId].userId != callerId)
    ensures r.Err? ==> r.error == FetchFailed
    ensures r.Ok? && connected ==> |r.value| == MessageCount(messages, sessionId)
  {
    if !connected then Ok([])
    else if sessionId !in sessions || sessions[sessionId].userId != callerId then Err(FetchFailed)
    else Ok(Entries(SortById(SessionMessages(messages, sessionId))))
  }

  /** The conversation as the handler evidently means it: the 404 reaches the
      client, and the messages come in the order they were stored. */
  function ConversationIntended(connected: bool, sessions: map<string, SessionRow>, messages: seq<MessageRow>,
                                callerId: string, sessionId: string): Result<seq<ConversationEntry>, HttpError>
  {
    if !connected then Ok([])
    else if sessionId !in sessions || sessions[sessionId].userId != callerId then Err(SessionNotFound)
    else Ok(Entries(SessionMessages(messages, sessionId)))
  }

  /** As written, a session that does not exist or belongs to someone else is
      reported as a server failure, never as "not found". */
  lemma MissingSessionReportedAs500(sessions: map<string, SessionRow>, messages: seq<MessageRow>,
                                    callerId: string, sessionId: string)
    requires sessionId !in sessions || sessions[sessionId].userId != callerId
    ensures Conversation(true, sessions, messages, callerId, sessionId) == Err(FetchFailed)
    ensures Conversation(true, sessions, messages, callerId, sessionId).error.status == 500
  {
  }

  /** As corrected, exactly the missing or foreign sessions are answered 404. */
  lemma IntendedReports404(sessions: map<string, SessionRow>, messages: seq<MessageRow>,
                           callerId: string, sessionId: string)
    ensures ConversationIntended(true, sessions, messages, callerId, sessionId) == Err(SessionNotFound)
      <==> sessionId !in sessions || sessions[sessionId].userId != callerId
  {
  }

  /** As written, a reply stored after the question but with the smaller
      (random) id is listed before it. */
  lemma ConversationOrderCounterexample()
    ensures var sessions := map["s" := SessionRow("s", "u", 0, 0)];
      var question := MessageRow("b", "s", "user", "q");
      var answer := MessageRow("a", "s", "assistant", "r");
      Conversation(true, sessions, [question, answer], "u", "s")
        == Ok([ConversationEntry("assistant", "r", "a"), ConversationEntry("user", "q", "b")])
  {
    var question := MessageRow("b", "s", "user", "q");
    var answer := MessageRow("a", "s", "assistant", "r");
    var sessions := map["s" := SessionRow("s", "u", 0, 0)];
    assert !StrLe("b", "a") && StrLe("a", "b");
    assert [question, answer][1..] == [answer];
    assert SessionMessages([answer], "s") == [answer];
    assert SessionMessages([question, answer], "s") == [question, answer];
    assert SortById([answer]) == [answer];
    assert InsertById(question, []) == [question];
    assert InsertById(question, [answer]) == [answer, question];
    assert SortById([question, answer]) == [answer, question];
    assert Entries([answer, question]) == [ConversationEntry("assistant", "r", "a"), ConversationEntry("user", "q", "b")];
  }

  /** As corrected, the conversation lists the session's messages in the order
      they were stored, and a new message of the session comes last. */
  lemma IntendedKeepsInsertionOrder(sessions: map<string, SessionRow>, messages: seq<MessageRow>,
                                    callerId: string, m: MessageRow)
    requires m.sessionId in sessions && sessions[m.sessionId].userId == callerId
    ensures var before := ConversationIntended(true, sessions, messages, callerId, m.sessionId);
      var after := ConversationIntended(true, sessions, messages + [m], callerId, m.sessionId);
      before.Ok? && after.Ok?
      && after.value == before.value + [ConversationEntry(m.role, m.content, m.id)]
  {
    SessionMessagesAppend(messages, m, m.sessionId);
    EntriesAppend(SessionMessages(messages, m.sessionId), m);
  }

  /** The conversation as written holds every message of the session once, in
      id order. */
  lemma ConversationIsSortedPermutation(sessions: map<string, SessionRow>, messages: seq<MessageRow>,
                                        callerId: string, sessionId: string)
    requires sessionId in sessions && sessions[sessionId].userId == callerId
    ensures var rows := SortById(SessionMessages(messages, sessionId));
      && Conversation(true, sessions, messages, callerId, sessionId) == Ok(Entries(rows))
      && SortedById(rows)
      && multiset(rows) == multiset(SessionMessages(messages, sessionId))
      && |rows| == MessageCount(messages, sessionId)
  {
    var rows := SortById(SessionMessages(messages, sessionId));
    assert |rows| == |multiset(rows)|;
  }

  /** The request names a session that exists and belongs to the user. */
  predicate OwnsSession(sessions: map<string, SessionRow>, userId: string, sessionId: Option<string>)
  {
    Text.Truthy(sessionId) && sessionId.value in sessions && sessions[sessionId.value].userId == userId
  }

  /** The session id get_or_create_session settles on: the given one, or the
      fresh one. With a database a given id other than the fresh one is kept
      only for a session of the user. */
  function ResolvedSessionId(connected: bool, sessions: map<string, SessionRow>, userId: string,
                             sessionId: Option<string>, freshId: string): (sid: string)
    ensures sid == freshId || (Text.Truthy(sessionId) && sid == sessionId.value)
    ensures connected && sid != freshId ==> sid in sessions && sessions[sid].userId == userId
  {
    if !connected then (if Text.Truthy(sessionId) then sessionId.value else freshId)
    else if OwnsSession(sessions, userId, sessionId) then sessionId.value
    else freshId
  }

  /** The sessions table after get_or_create_session: the resolved session is
      refreshed or created, every other row is kept; without a database
      nothing is stored. */
  function SessionsAfter(connected: bool, sessions: map<string, SessionRow>, userId: string,
                         sessionId: Option<string>, now: int, freshId: string): (s: map<string, SessionRow>)
    ensures !connected ==> s == sessions
    ensures connected ==> s.Keys == sessions.Keys + {ResolvedSessionId(connected, sessions, userId, sessionId, freshId)}
    ensures connected ==> var sid := ResolvedSessionId(connected, sessions, userId, sessionId, freshId);
      forall id :: id in sessions && id != sid ==> s[id] == sessions[id]
    ensures connected ==> var sid := ResolvedSessionId(connected, sessions, userId, sessionId, freshId);
      s[sid].userId == userId && s[sid].updatedAt == now
  {
    if !connected then sessions
    else if OwnsSession(sessions, userId, sessionId) then
      sessions[sessionId.value := sessions[sessionId.value].(updatedAt := now)]
    else sessions[freshId := SessionRow(freshId, userId, now, now)]
  }

  /** What get_db hands to a handler: a real session, or the MockDB stand-in
      that stores nothing and finds nothing. */
  datatype DbSession = RealSession | MockSession

  /** get_db as written. The function contains `yield`, so Python makes it a
      generator, and its `return MockDB()` only ends the generator without
      yielding: nothing is handed over (None). FastAPI enters the generator as a
      context manager, which then raises "generator didn't yield". */
  function GetDb(connected: bool): (d: Option<DbSession>)
    ensures d.None? <==> !connected
    ensures d.Some? ==> d.value == RealSession
  {
    if connected then Some(RealSession) else None
  }

  /** get_db as evidently intended: the MockDB stand-in when there is no
      database. */
  function GetDbIntended(connected: bool): (d: DbSession)
    ensures d == MockSession <==> !connected
  {
    if connected then RealSession else MockSession
  }

  /** The 500 Starlette answers with when an exception reaches no handler. */
  const UnhandledError := Raise(500, "Internal Server Error")

  /** The dependencies of `/chat`, `/sessions/{user_id}` and
      `/conversation/{session_id}`, resolved in the order they are declared:
      `verify_token`, then `get_db`. A failing verify_token answers with its
      own error; a get_db that does not yield answers with the unhandled 500.
      Only when both succeed does the handler body run, as the user given. */
  function Dependencies(auth: Result<BackendAuth.User, HttpError>, connected: bool): (r: Result<BackendAuth.User, HttpError>)
    ensures auth.Err? ==> r == auth
    ensures auth.Ok? && !connected ==> r == Err(UnhandledError)
    ensures r.Ok? <==> auth.Ok? && connected
    ensures r.Ok? ==> r == auth
  {
    if auth.Err? then auth
    else if GetDb(connected).None? then Err(UnhandledError)
    else auth
  }

  /** The dependencies as intended: get_db always hands over a session, so
      every authenticated request reaches its handler body. */
  function DependenciesIntended(auth: Result<BackendAuth.User, HttpError>, connected: bool): (r: Result<BackendAuth.User, HttpError>)
    ensures r.Ok? <==> auth.Ok?
    ensures r.Err? ==> r == auth
  {
    if auth.Err? then auth
    else match GetDbIntended(connected)
      case RealSession => auth
      case MockSession => auth
  }

  /** As written, without a database no authenticated request of these three
      endpoints reaches its handler: each is answered with the unhandled 500,
      whatever the user asked for. */
  lemma NoDatabaseHandlersUnreachable(auth: Result<BackendAuth.User, HttpError>)
    ensures Dependencies(auth, false).Err?
    ensures auth.Ok? ==> Dependencies(auth, false) == Err(UnhandledError)
    ensures Dependencies(auth, false).Err? && auth.Ok? ==> Dependencies(auth, false).error.status == 500
  {
  }

  /** As intended, an authenticated request reaches its handler with or
      without a database, and without one the handler works against MockDB;
      the no-database branches of the Database methods model that path. */
  lemma IntendedDependenciesReachHandlers(auth: Result<BackendAuth.User, HttpError>, connected: bool)
    ensures DependenciesIntended(auth, connected) == auth
    ensures !connected ==> GetDbIntended(connected) == MockSession
    ensures auth.Ok? ==> DependenciesIntended(auth, connected).Ok?
  {
  }

  /** The two tables. `connected` is false when the database could not be set
      up. The handler bodies then take their no-database branches, working
      against the MockDB stand-in that stores nothing. As written the program
      never runs those branches, because get_db fails before the body (see
      Dependencies); they model the handlers as evidently intended (see
      DependenciesIntended). */
  class Database {
    const connected: bool
    var sessions: map<string, SessionRow>
    var messages: seq<MessageRow>

    /** Each row is keyed by its own id, every message belongs to a stored
        session, and the stand-in holds nothing. */
    ghost predicate Valid()
      reads this
    {
      && (forall id :: id in sessions ==> sessions[id].id == id)
      && (forall m :: m in messages ==> m.sessionId in sessions)
      && (!connected ==> sessions == map[] && messages == [])
    }

    constructor (connected: bool)
      ensures this.connected == connected && sessions == map[] && messages == []
      ensures Valid()
    {
      this.connected := connected;
      sessions := map[];
      messages := [];
    }

    /** get_or_create_session. Without a database the given id is echoed when
        it is non-empty, otherwise the fresh one. With a database the given id
        is kept only when that session exists and belongs to the user, which
        refreshes its updated_at; otherwise a new session is stored under the
        fresh id. */
    method GetOrCreateSession(userId: string, sessionId: Option<string>, now: int, freshId: string)
      returns (sid: string)
      requires Valid()
      requires freshId !in sessions
      modifies this
      ensures Valid()
      ensures messages == old(messages)
      ensures !connected ==> sessions == old(sessions) && sid == (if Text.Truthy(sessionId) then sessionId.value else freshId)
      ensures connected && Text.Truthy(sessionId) && sessionId.value in old(sessions)
              && old(sessions)[sessionId.value].userId == userId ==>
        sid == sessionId.value && sessions == old(sessions)[sid := old(sessions)[sid].(updatedAt := now)]
      ensures connected && !(Text.Truthy(sessionId) && sessionId.value in old(sessions)
              && old(sessions)[sessionId.value].userId == userId) ==>
        sid == freshId && sessions == old(sessions)[freshId := SessionRow(freshId, userId, now, now)]
      ensures connected ==> sid in sessions && sessions[sid].userId == userId
      ensures sid == ResolvedSessionId(connected, old(sessions), userId, sessionId, freshId)
      ensures sessions == SessionsAfter(connected, old(sessions), userId, sessionId, now, freshId)
    {
      if !connected {
        if Text.Truthy(sessionId) {
          return sessionId.value;
        }
        return freshId;
      }
      if Text.Truthy(sessionId) && sessionId.value in sessions && sessions[sessionId.value].userId == userId {
        sid := sessionId.value;
        sessions := sessions[sid := sessions[sid].(updatedAt := now)];
        return;
      }
      sid := freshId;
      sessions := sessions[freshId := SessionRow(freshId, userId, now, now)];
    }

    /** Stores a message row (`db.add` and `db.commit`); the stand-in
        without a database drops it. */
    method SaveMessage(row: MessageRow)
      requires Valid()
      requires connected ==> row.sessionId in sessions
      modifies this`messages
      ensures Valid()
      ensures messages == old(messages) + (if connected then [row] else [])
    {
      if connected {
        messages := messages + [row];
      }
    }

    /** `/chat`. A message that is blank after stripping is refused with 400
        before anything else happens. Otherwise the session is resolved, the
        message is stored, the model is asked with the request's history, and
        the reply is stored and returned. Any failure after the blank check
        becomes 500 "Chat processing error: {e}"; what was already committed
        (the session, the user's message) stays. */
    method ChatEndpoint(userId: string, request: ChatRequest, clientReady: bool, outcome: BackendAi.AiOutcome,
                        now: int, nowIso: string, freshSessionId: string, userMessageId: string, replyId: string)
      returns (r: Result<ChatReply, HttpError>, sent: seq<BackendAi.ContextMessage>)
      requires Valid()
      requires freshSessionId !in sessions
      modifies this
      ensures Valid()
      ensures Text.Trim(request.message, Text.PyWhitespace) == [] ==>
        r == Err(Raise(400, "Message is required.")) && sent == []
        && sessions == old(sessions) && messages == old(messages)
      ensures Text.Trim(request.message, Text.PyWhitespace) != [] ==>
        sent == [BackendAi.ContextMessage("system", BackendAi.SystemPrompt)]
          + (if request.conversationHistory.Some? then BackendAi.HistoryContext(request.conversationHistory.value) else [])
          + [BackendAi.ContextMessage("user", request.message)]
      ensures !connected ==> sessions == old(sessions) && messages == old(messages)
      ensures Text.Trim(request.message, Text.PyWhitespace) != [] && !clientReady ==>
        r == Err(Raise(500, "Chat processing error: "
                   + ExceptionText(Raise(500, "AI processing error: " + "OpenAI client not initialized"))))
      ensures Text.Trim(request.message, Text.PyWhitespace) != [] && clientReady && outcome.AiRaised? ==>
        r == Err(Raise(500, "Chat processing error: "
                   + ExceptionText(Raise(500, "AI processing error: " + outcome.message))))
      ensures r.Ok? ==> Text.Trimmed(r.value.reply, Text.PyWhitespace) && r.value.timestamp == nowIso
      ensures r.Ok? && connected ==> r.value.sessionId in sessions && sessions[r.value.sessionId].userId == userId
      ensures Text.Trim(request.message, Text.PyWhitespace) != [] ==>
        var sid := ResolvedSessionId(connected, old(sessions), userId, request.sessionId, freshSessionId);
        && sessions == SessionsAfter(connected, old(sessions), userId, request.sessionId, now, freshSessionId)
        && messages == old(messages)
             + (if connected then [MessageRow(userMessageId, sid, "user", request.message)] else [])
             + (if connected && r.Ok? then [MessageRow(replyId, sid, "assistant", r.value.reply)] else [])
        && (r.Ok? <==> clientReady && outcome.AiAnswered?)
        && (r.Ok? ==> r.value == ChatReply(Text.Trim(BackendAi.ReplyText(outcome.response), Text.PyWhitespace),
                                           nowIso, sid, BackendAi.TokensUsed(outcome.response)))
    {
      sent := [];
      if Text.Trim(request.message, Text.PyWhitespace) == [] {
        return Err(Raise(400, "Message is required.")), sent;
      }
      var sid := GetOrCreateSession(userId, request.sessionId, now, freshSessionId);
      SaveMessage(MessageRow(userMessageId, sid, "user", request.message));
      var conversationForAi := BackendAi.ConversationForAi(request.conversationHistory);
      var ai;
      sent, ai := BackendAi.ProcessWithOpenai(conversationForAi, request.message, clientReady, outcome);
      if ai.Err? {
        return Err(Raise(500, "Chat processing error: " + ExceptionText(ai.error))), sent;
      }
      SaveMessage(MessageRow(replyId, sid, "assistant", ai.value.reply));
      r := Ok(ChatReply(ai.value.reply, nowIso, sid, ai.value.tokensUsed));
    }

    /** `/sessions/{user_id}`: 403 unless the caller asks for their own
        sessions; empty without a database; otherwise every session of the
        user exactly once, newest activity first, each with its message count. */
    method UserSessions(callerId: string, userId: string) returns (r: Result<seq<SessionSummary>, HttpError>)
      requires Valid()
      ensures callerId != userId ==> r == Err(Raise(403, "Access denied"))
      ensures callerId == userId ==> r.Ok?
      ensures callerId == userId && !connected ==> r == Ok([])
      ensures r.Ok? ==> SortedByUpdatedDesc(r.value) && DistinctIds(r.value)
      ensures r.Ok? ==> forall s :: s in r.value ==>
        s.id in sessions && sessions[s.id].userId == userId && s == Summary(sessions[s.id], messages)
      ensures r.Ok? ==> forall id :: id in sessions && sessions[id].userId == userId ==> id in IdsOf(r.value)
    {
      if callerId != userId {
        return Err(Raise(403, "Access denied"));
      }
      if !connected {
        return Ok([]);
      }
      var listed: seq<SessionSummary> := [];
      var remaining := sessions.Keys;
      while remaining != {}
        invariant remaining <= sessions.Keys
        invariant SortedByUpdatedDesc(listed) && DistinctIds(listed)
        invariant forall s :: s in listed ==>
          s.id in sessions && sessions[s.id].userId == userId && s == Summary(sessions[s.id], messages)
        invariant forall id :: id in sessions && sessions[id].userId == userId ==>
          (id in IdsOf(listed) <==> id !in remaining)
        invariant forall id :: id in IdsOf(listed) ==> id in sessions && sessions[id].userId == userId
        decreases |remaining|
      {
        var id :| id in remaining;
        var row := sessions[id];
        if row.userId == userId {
          listed := InsertByUpdated(Summary(row, messages), listed);
        }
        remaining := remaining - {id};
      }
      r := Ok(listed);
    }

    /** `/conversation/{session_id}`, as written. */
    method GetConversation(callerId: string, sessionId: string) returns (r: Result<seq<ConversationEntry>, HttpError>)
      ensures r == Conversation(connected, sessions, messages, callerId, sessionId)
    {
      if !connected {
        return Ok([]);
      }
      if sessionId !in sessions || sessions[sessionId].userId != callerId {
        return Err(FetchFailed);
      }
      var rows := SortById(SessionMessages(messages, sessionId));
      var conversation := FormatEntries(rows);
      r := Ok(conversation);
    }
  }

  /** The 500 the chat endpoint reports for a failed model call quotes the
      inner exception as "500: AI processing error: ...". */
  lemma ChatErrorDetail(message: string)
    ensures "Chat processing error: " + ExceptionText(Raise(500, "AI processing error: " + message))
      == "Chat processing error: " + "500: " + "AI processing error: " + message
  {
    assert Text.NatToString(5) == "5";
    assert Text.NatToString(50) == "50";
    assert Text.NatToString(500) == "500";
  }
}
