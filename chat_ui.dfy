/** The chat widget's message lifecycle (apps/web/components/chat-ui.tsx).

    The widget keeps an ordered message list and the `input`, `loading` and
    `error` fields. sendMessage is an async function: the part before its first
    await appends the user's message optimistically (BeginSend); the part after
    the network exchange settles that message and appends the assistant's reply
    or an apology (CompleteSend). Each part is one atomic step; other handlers
    (retryMessage, clearError) may run in between. */
module ChatUi {
  import opened Wrappers
  import Text
  import WebApi

  /** Message ids come from a fresh-id supply (a counter) instead of
      Date.now() and Math.random(). */
  type MessageId = nat

  datatype Sender = User | Ai

  /** "sending" | "sent" | "error" */
  datatype Status = Sending | Sent | Failed

  datatype Message = Message(id: MessageId, sender: Sender, content: string, timestamp: string, status: Status)

  /** One element of `conversation_history` in the request body. */
  datatype HistoryEntry = HistoryEntry(role: string, content: string, timestamp: string)

  /** The body of POST /chat. */
  datatype ChatRequest = ChatRequest(message: string, conversationHistory: seq<HistoryEntry>)

  /** The body of a 2xx answer to POST /chat. */
  datatype ChatResponse = ChatResponse(reply: string, timestamp: string, sessionId: string, tokensUsed: int)

  /** What the awaited part of sendMessage ran into: getSession or fetch threw,
      or the server answered with a status and a body that may fail to parse. */
  datatype ChatOutcome =
    | Threw(reason: WebApi.Thrown)
    | Answered(ok: bool, status: nat, body: WebApi.BodyJson<ChatResponse>)

  const Apology := "Sorry, I'm having trouble connecting right now. Please try again."
  const HttpErrorPrefix := "HTTP error! status: "

  /** The role a message has in the request history. */
  function Role(s: Sender): string
  {
    if s == User then "user" else "assistant"
  }

  function Entry(m: Message): HistoryEntry
  {
    HistoryEntry(Role(m.sender), m.content, m.timestamp)
  }

  /** getConversationHistory(): the list as {role, content, timestamp} records. */
  function ConversationHistory(ms: seq<Message>): (h: seq<HistoryEntry>)
    ensures |h| == |ms|
  {
    if ms == [] then [] else [Entry(ms[0])] + ConversationHistory(ms[1..])
  }

  /** The history keeps each message's content and timestamp, in order, and
      gives "user" to the user's messages and "assistant" to all others. */
  lemma {:induction false} HistoryPointwise(ms: seq<Message>)
    ensures forall i :: 0 <= i < |ms| ==> ConversationHistory(ms)[i] == Entry(ms[i])
    ensures forall i :: 0 <= i < |ms| ==>
      (ConversationHistory(ms)[i].role == "user" <==> ms[i].sender == User)
      && (ConversationHistory(ms)[i].role == "assistant" <==> ms[i].sender == Ai)
  {
    if ms != [] {
      HistoryPointwise(ms[1..]);
      forall i | 0 <= i < |ms| ensures ConversationHistory(ms)[i] == Entry(ms[i]) {
        if i > 0 {
          assert ConversationHistory(ms)[i] == ConversationHistory(ms[1..])[i - 1];
        }
      }
    }
  }

  /** The sender a history role stands for, as the back end reads it back. */
  function SenderOf(role: string): Sender
  {
    if role == "user" then User else Ai
  }

  /** Reading the history back yields the list's senders, contents and
      timestamps, in order. */
  lemma {:induction false} HistoryRoundTrip(ms: seq<Message>)
    ensures forall i :: 0 <= i < |ms| ==>
      var e := ConversationHistory(ms)[i];
      SenderOf(e.role) == ms[i].sender && e.content == ms[i].content && e.timestamp == ms[i].timestamp
  {
    HistoryPointwise(ms);
  }

  /** Appending a message appends its entry to the history. */
  lemma {:induction false} HistoryAppend(ms: seq<Message>, m: Message)
    ensures ConversationHistory(ms + [m]) == ConversationHistory(ms) + [Entry(m)]
  {
    if ms != [] {
      assert (ms + [m])[1..] == ms[1..] + [m];
      HistoryAppend(ms[1..], m);
      Text.AppendAssoc([Entry(ms[0])], ConversationHistory(ms[1..]), [Entry(m)]);
    }
  }

  /** The update lambda `prev.map(msg => msg.id === id ? {...msg, status} : msg)`. */
  function MarkStatus(ms: seq<Message>, id: MessageId, st: Status): (r: seq<Message>)
    ensures |r| == |ms|
    ensures forall i :: 0 <= i < |ms| && ms[i].id == id ==> r[i] == ms[i].(status := st)
    ensures forall i :: 0 <= i < |ms| && ms[i].id != id ==> r[i] == ms[i]
  {
    if ms == [] then []
    else [if ms[0].id == id then ms[0].(status := st) else ms[0]] + MarkStatus(ms[1..], id, st)
  }

  /** The update lambda `prev.filter(msg => msg.id !== id)`. */
  function RemoveId(ms: seq<Message>, id: MessageId): (r: seq<Message>)
    ensures |r| <= |ms|
  {
    if ms == [] then []
    else if ms[0].id == id then RemoveId(ms[1..], id)
    else [ms[0]] + RemoveId(ms[1..], id)
  }

  /** Filtering keeps exactly the messages with another id. */
  lemma {:induction false} RemoveIdMembers(ms: seq<Message>, id: MessageId)
    ensures forall m :: m in RemoveId(ms, id) <==> m in ms && m.id != id
  {
    if ms != [] {
      RemoveIdMembers(ms[1..], id);
      assert ms == [ms[0]] + ms[1..];
    }
  }

  /** `messages.find(msg => msg.id === id)`: the first message with that id. */
  function Find(ms: seq<Message>, id: MessageId): (r: Option<Message>)
    ensures r.Some? ==> r.value.id == id
  {
    if ms == [] then None
    else if ms[0].id == id then Some(ms[0])
    else Find(ms[1..], id)
  }

  /** find returns the first message with the id, and undefined exactly when no
      message has it. */
  lemma {:induction false} FindSpec(ms: seq<Message>, id: MessageId)
    ensures Find(ms, id).Some? ==>
      exists k :: (0 <= k < |ms| && ms[k] == Find(ms, id).value && forall i :: 0 <= i < k ==> ms[i].id != id)
    ensures Find(ms, id).None? <==> forall i :: 0 <= i < |ms| ==> ms[i].id != id
  {
    if ms != [] {
      FindSpec(ms[1..], id);
      if ms[0].id != id && Find(ms, id).Some? {
        var k :| 0 <= k < |ms[1..]| && ms[1..][k] == Find(ms, id).value
          && forall i :: 0 <= i < k ==> ms[1..][i].id != id;
        assert ms[k + 1] == Find(ms, id).value;
        assert forall i :: 0 <= i < k + 1 ==> ms[i].id != id by {
          forall i | 0 <= i < k + 1 ensures ms[i].id != id {
            if i > 0 {
              assert ms[i] == ms[1..][i - 1];
            }
          }
        }
      }
      if Find(ms, id).None? {
        forall i | 0 <= i < |ms| ensures ms[i].id != id {
          if i > 0 {
            assert ms[i] == ms[1..][i - 1];
          }
        }
      }
    }
  }

  /** No two messages share an id: the first one's id does not occur again,
      and the rest have unique ids. */
  predicate UniqueIds(ms: seq<Message>)
  {
    ms == [] || (Find(ms[1..], ms[0].id).None? && UniqueIds(ms[1..]))
  }

  /** Unique ids, stated over positions. */
  lemma {:induction false} UniqueIdsAt(ms: seq<Message>)
    requires UniqueIds(ms)
    ensures forall i, j :: 0 <= i < j < |ms| ==> ms[i].id != ms[j].id
  {
    if ms != [] {
      UniqueIdsAt(ms[1..]);
      FindSpec(ms[1..], ms[0].id);
      forall i, j | 0 <= i < j < |ms| ensures ms[i].id != ms[j].id {
        assert ms[j] == ms[1..][j - 1];
        if i > 0 {
          assert ms[i] == ms[1..][i - 1];
        }
      }
    }
  }

  /** Number of messages whose status is "sending". */
  function SendingCount(ms: seq<Message>): nat
  {
    if ms == [] then 0 else (if ms[0].status == Sending then 1 else 0) + SendingCount(ms[1..])
  }

  /** With unique ids, removing the id of the message at index k removes exactly
      that message and keeps every other one, in order. */
  lemma {:induction false} RemoveIdAt(ms: seq<Message>, k: nat)
    requires UniqueIds(ms) && k < |ms|
    ensures RemoveId(ms, ms[k].id) == ms[..k] + ms[k + 1..]
  {
    var t := ms[1..];
    FindSpec(t, ms[0].id);
    if k == 0 {
      RemoveAbsent(t, ms[0].id);
      assert ms[..0] + ms[1..] == t;
    } else {
      assert t[k - 1] == ms[k];
      assert ms[0].id != ms[k].id;
      RemoveIdAt(t, k - 1);
      assert RemoveId(ms, ms[k].id) == [ms[0]] + (t[..k - 1] + t[k..]);
      assert t[..k - 1] == ms[1..k] && t[k..] == ms[k + 1..];
      assert ms[..k] == [ms[0]] + ms[1..k];
    }
  }

  /** Removing an id no message has changes nothing. */
  lemma {:induction false} RemoveAbsent(ms: seq<Message>, id: MessageId)
    requires forall i :: 0 <= i < |ms| ==> ms[i].id != id
    ensures RemoveId(ms, id) == ms
  {
    if ms != [] {
      RemoveAbsent(ms[1..], id);
    }
  }

  /** The first message with an id other than the removed one is still found. */
  lemma {:induction false} FindAfterRemove(ms: seq<Message>, id: MessageId, x: MessageId)
    requires x != id
    ensures Find(RemoveId(ms, id), x) == Find(ms, x)
  {
    if ms != [] {
      FindAfterRemove(ms[1..], id, x);
    }
  }

  /** Marking a status keeps every message's id, sender and content. */
  lemma {:induction false} FindAfterMark(ms: seq<Message>, id: MessageId, st: Status, x: MessageId)
    ensures Find(MarkStatus(ms, id, st), x) ==
      (if x == id && Find(ms, x).Some? then Some(Find(ms, x).value.(status := st)) else Find(ms, x))
  {
    if ms != [] {
      assert MarkStatus(ms, id, st)[1..] == MarkStatus(ms[1..], id, st);
      FindAfterMark(ms[1..], id, st, x);
    }
  }

  /** Looking an id up after an append finds the earlier message when there is
      one, and otherwise the appended one when it has that id. */
  lemma {:induction false} FindAppend(ms: seq<Message>, m: Message, x: MessageId)
    ensures Find(ms + [m], x) == (if Find(ms, x).Some? then Find(ms, x) else if m.id == x then Some(m) else None)
  {
    if ms != [] {
      assert (ms + [m])[1..] == ms[1..] + [m];
      FindAppend(ms[1..], m, x);
    }
  }

  /** A message with a fresh id appended at the end is found by its id. */
  lemma FindAppendFresh(ms: seq<Message>, m: Message)
    requires forall i :: 0 <= i < |ms| ==> ms[i].id != m.id
    ensures Find(ms + [m], m.id) == Some(m)
  {
    FindSpec(ms, m.id);
    FindAppend(ms, m, m.id);
  }

  /** Appending a message with a fresh id keeps ids unique. */
  lemma {:induction false} UniqueAppendFresh(ms: seq<Message>, m: Message)
    requires UniqueIds(ms)
    requires forall i :: 0 <= i < |ms| ==> ms[i].id != m.id
    ensures UniqueIds(ms + [m])
  {
    if ms != [] {
      assert (ms + [m])[1..] == ms[1..] + [m];
      assert forall i :: 0 <= i < |ms[1..]| ==> ms[1..][i] == ms[i + 1];
      UniqueAppendFresh(ms[1..], m);
      FindAppend(ms[1..], m, ms[0].id);
    }
  }

  /** Marking a status keeps ids unique. */
  lemma {:induction false} MarkKeepsUnique(ms: seq<Message>, id: MessageId, st: Status)
    requires UniqueIds(ms)
    ensures UniqueIds(MarkStatus(ms, id, st))
  {
    if ms != [] {
      var r := MarkStatus(ms, id, st);
      assert r[1..] == MarkStatus(ms[1..], id, st);
      MarkKeepsUnique(ms[1..], id, st);
      FindAfterMark(ms[1..], id, st, ms[0].id);
    }
  }

  /** Appending a message whose id the list does not have, then marking that
      id, marks the appended message only. */
  lemma {:induction false} MarkAppended(ms: seq<Message>, m: Message, st: Status)
    requires forall i :: 0 <= i < |ms| ==> ms[i].id != m.id
    ensures MarkStatus(ms + [m], m.id, st) == ms + [m.(status := st)]
  {
  }

  /** If every "sending" message carries the id x and ids are unique, there is
      one such message exactly when the message found under x is sending. */
  lemma {:induction false} SendingCountOfId(ms: seq<Message>, x: MessageId)
    requires UniqueIds(ms)
    requires forall i :: 0 <= i < |ms| && ms[i].status == Sending ==> ms[i].id == x
    ensures SendingCount(ms) == (if Find(ms, x).Some? && Find(ms, x).value.status == Sending then 1 else 0)
  {
    if ms != [] {
      SendingCountOfId(ms[1..], x);
      if ms[0].id == x {
        assert Find(ms[1..], x).None?;
      }
    }
  }

  /** What the invariant demands of each message: its id was drawn from the
      supply; a user's message holds trimmed, non-empty text; only the message
      of the pending send is "sending". */
  predicate MessageOk(m: Message, nextId: nat, pending: Option<MessageId>)
  {
    && m.id < nextId
    && (m.sender == User ==> m.content != [] && Text.Trimmed(m.content, Text.JsWhitespace))
    && (m.status == Sending ==> pending == Some(m.id))
  }

  /** The invariant of the widget's state, on the values of its fields: ids are
      unique, every message is well formed, and while a send is pending its
      "sending" message is in the list. */
  predicate Consistent(ms: seq<Message>, nextId: nat, pending: Option<MessageId>)
  {
    && UniqueIds(ms)
    && (forall i :: 0 <= i < |ms| ==> MessageOk(ms[i], nextId, pending))
    && (pending.Some? ==> Find(ms, pending.value).Some? && Find(ms, pending.value).value.status == Sending)
  }

  /** In a consistent state the list holds exactly one "sending" message while a
      send is pending and none otherwise: never more than one, and a "sending"
      message means `loading`. */
  lemma SendingCountMatchesPending(ms: seq<Message>, nextId: nat, pending: Option<MessageId>)
    requires Consistent(ms, nextId, pending)
    ensures SendingCount(ms) == (if pending.Some? then 1 else 0)
  {
    assert forall i :: 0 <= i < |ms| ==> MessageOk(ms[i], nextId, pending);
    if pending.Some? {
      SendingCountOfId(ms, pending.value);
    } else if ms != [] {
      SendingCountOfId(ms, 0);
    }
  }

  /** The optimistic append keeps the invariant: a fresh "sending" user message
      with trimmed, non-empty text is appended while nothing is pending. */
  lemma ConsistentAfterBegin(ms: seq<Message>, nextId: nat, m: Message)
    requires Consistent(ms, nextId, None)
    requires m.id == nextId && m.sender == User && m.status == Sending
    requires m.content != [] && Text.Trimmed(m.content, Text.JsWhitespace)
    ensures Consistent(ms + [m], nextId + 1, Some(m.id))
  {
    var r := ms + [m];
    forall i | 0 <= i < |r| ensures MessageOk(r[i], nextId + 1, Some(m.id)) {
      if i < |ms| {
        assert MessageOk(ms[i], nextId, None);
      }
    }
    FindAppendFresh(ms, m);
    UniqueAppendFresh(ms, m);
  }

  /** Settling the pending message to a final status and appending a fresh
      assistant message keeps the invariant, with nothing pending any more. */
  lemma ConsistentAfterComplete(ms: seq<Message>, nextId: nat, x: MessageId, st: Status, a: Message)
    requires Consistent(ms, nextId, Some(x))
    requires st != Sending && a.id == nextId && a.sender == Ai && a.status != Sending
    ensures Consistent(MarkStatus(ms, x, st) + [a], nextId + 1, None)
  {
    var marked := MarkStatus(ms, x, st);
    var r := marked + [a];
    forall i | 0 <= i < |r| ensures MessageOk(r[i], nextId + 1, None) {
      if i < |ms| {
        assert MessageOk(ms[i], nextId, Some(x));
      }
    }
    MarkKeepsUnique(ms, x, st);
    forall i | 0 <= i < |marked| ensures marked[i].id != a.id {
      assert MessageOk(ms[i], nextId, Some(x));
    }
    UniqueAppendFresh(marked, a);
  }

  /** Filtering keeps ids unique. */
  lemma {:induction false} RemoveKeepsUnique(ms: seq<Message>, id: MessageId)
    requires UniqueIds(ms)
    ensures UniqueIds(RemoveId(ms, id))
  {
    if ms != [] {
      RemoveKeepsUnique(ms[1..], id);
      if ms[0].id != id {
        FindAfterRemove(ms[1..], id, ms[0].id);
        assert RemoveId(ms, id)[1..] == RemoveId(ms[1..], id);
      }
    }
  }

  /** Removing a failed message keeps the invariant; the pending send, if any,
      is untouched. */
  lemma ConsistentAfterRemove(ms: seq<Message>, nextId: nat, p: Option<MessageId>, id: MessageId)
    requires Consistent(ms, nextId, p)
    requires Find(ms, id).Some? && Find(ms, id).value.status == Failed
    ensures Consistent(RemoveId(ms, id), nextId, p)
  {
    var r := RemoveId(ms, id);
    RemoveKeepsUnique(ms, id);
    RemoveIdMembers(ms, id);
    if p.Some? {
      FindAfterRemove(ms, id, p.value);
    }
    forall i | 0 <= i < |r| ensures MessageOk(r[i], nextId, p) {
      assert r[i] in r;
      var k :| 0 <= k < |ms| && ms[k] == r[i];
      assert MessageOk(ms[k], nextId, p);
    }
  }

  /** The error text of the catch block: `err.message` for an Error (the
      non-ok status is thrown as an Error), else "Failed to send message". */
  function ThrownText(t: WebApi.Thrown): (m: string)
    ensures WebApi.IsError(t) ==> m == WebApi.ErrorMessage(t)
    ensures !WebApi.IsError(t) ==> m == "Failed to send message"
  {
    if WebApi.IsError(t) then WebApi.ErrorMessage(t) else "Failed to send message"
  }

  /** How the try block of sendMessage ends: with the parsed response, or with
      the text that `error` is set to. */
  function SettleChat(o: ChatOutcome): (r: Result<ChatResponse, string>)
    ensures o.Threw? ==> r == Err(ThrownText(o.reason))
    ensures o.Answered? && o.ok && o.body.JsonThrew? ==> r == Err(ThrownText(o.body.reason))
  {
    match o
    case Threw(t) => Err(ThrownText(t))
    case Answered(ok, status, body) =>
      if !ok then Err(HttpErrorPrefix + Text.NatToString(status))
      else match body
        case JsonParsed(r) => Ok(r)
        case JsonThrew(t) => Err(ThrownText(t))
  }

  /** A send succeeds exactly when the response is ok and its body parses; a
      non-ok response is reported as "HTTP error! status: N", from which the status
      can be read back. */
  lemma SettleChatCases(o: ChatOutcome)
    ensures SettleChat(o).Ok? <==> o.Answered? && o.ok && o.body.JsonParsed?
    ensures SettleChat(o).Ok? ==> SettleChat(o).value == o.body.value
    ensures o.Answered? && !o.ok ==>
      var e := SettleChat(o).error;
      |e| > |HttpErrorPrefix| && e[..|HttpErrorPrefix|] == HttpErrorPrefix
      && (forall k :: |HttpErrorPrefix| <= k < |e| ==> '0' <= e[k] <= '9')
      && Text.DigitsValue(e[|HttpErrorPrefix|..]) == o.status
  {
    if o.Answered? && !o.ok {
      var d := Text.NatToString(o.status);
      var e := HttpErrorPrefix + d;
      assert e[|HttpErrorPrefix|..] == d;
      Text.NatToStringRoundTrip(o.status);
    }
  }

  /** The request headers: always the JSON content type, and a bearer token only
      when the session has a non-empty access token. */
  function RequestHeaders(token: Option<string>): (hs: seq<(string, string)>)
    ensures 1 <= |hs| <= 2 && hs[0] == ("Content-Type", "application/json")
    ensures |hs| == 2 <==> token.Some? && token.value != []
    ensures |hs| == 2 ==> hs[1] == ("Authorization", "Bearer " + token.value)
  {
    [("Content-Type", "application/json")]
    + (if token.Some? && token.value != [] then [("Authorization", "Bearer " + token.value)] else [])
  }

  /** A send that has passed the guard and waits for its network exchange: the
      id of the message it appended and the request body it sends. */
  datatype PendingSend = PendingSend(id: MessageId, request: ChatRequest)

  function PendingId(p: Option<PendingSend>): Option<MessageId>
  {
    if p.Some? then Some(p.value.id) else None
  }

  /** The message the second half of sendMessage appends: the assistant's
      reply with the server's timestamp, or the apology, marked "error". */
  function ReplyMessage(settled: Result<ChatResponse, string>, id: MessageId, now: string): (m: Message)
    ensures m.id == id && m.sender == Ai
    ensures settled.Ok? ==>
      m.content == settled.value.reply && m.timestamp == settled.value.timestamp && m.status == Sent
    ensures settled.Err? ==> m.content == Apology && m.timestamp == now && m.status == Failed
  {
    match settled
    case Ok(r) => Message(id, Ai, r.reply, r.timestamp, Sent)
    case Err(_) => Message(id, Ai, Apology, now, Failed)
  }

  class ChatWidget {
    var messages: seq<Message>
    var input: string
    var loading: bool
    var error: Option<string>
    /** the fresh-id supply */
    var nextId: nat
    /** the suspended sendMessage call, if one is waiting for the network */
    var pending: Option<PendingSend>

    ghost predicate Valid()
      reads this
    {
      && Consistent(messages, nextId, PendingId(pending))
      && loading == pending.Some?
    }

    /** The initial state: no messages, empty input, not loading, no error. */
    constructor ()
      ensures Valid()
      ensures messages == [] && input == [] && !loading && error.None?
    {
      messages := [];
      input := [];
      loading := false;
      error := None;
      nextId := 0;
      pending := None;
    }

    /** The input box's onChange. */
    method SetInput(text: string)
      requires Valid()
      modifies this`input
      ensures Valid() && input == text
    {
      input := text;
    }

    /** sendMessage up to its first await. Blank input or a send in flight:
        nothing changes and nothing is sent. Otherwise the trimmed text is
        appended as a "sending" user message, the input and the error are
        cleared, `loading` is set, and the request carries the trimmed text and
        the history of the list as it stood before the append. */
    method BeginSend(now: string) returns (accepted: bool)
      requires Valid()
      modifies this
      ensures Valid()
      ensures accepted <==> Text.Trim(old(input), Text.JsWhitespace) != [] && !old(loading)
      ensures !accepted ==> (messages == old(messages) && input == old(input)
        && loading == old(loading) && error == old(error) && pending == old(pending)
        && nextId == old(nextId))
      ensures accepted ==>
        var m := Message(old(nextId), User, Text.Trim(old(input), Text.JsWhitespace), now, Sending);
        && messages == old(messages) + [m]
        && input == [] && loading && error.None? && nextId == old(nextId) + 1
        && pending == Some(PendingSend(m.id, ChatRequest(m.content, ConversationHistory(old(messages)))))
    {
      var text := Text.Trim(input, Text.JsWhitespace);
      if text == [] || loading {
        return false;
      }
      var m := Message(nextId, User, text, now, Sending);
      var history := ConversationHistory(messages);
      Text.TrimTrimmed(input, Text.JsWhitespace);
      ConsistentAfterBegin(messages, nextId, m);
      messages := messages + [m];
      input := [];
      loading := true;
      error := None;
      pending := Some(PendingSend(m.id, ChatRequest(text, history)));
      nextId := nextId + 1;
      accepted := true;
    }

    /** sendMessage after its network exchange. On success the triggering
        message (found by id) becomes "sent" and the reply is appended with the
        server's timestamp; on failure it becomes "error", `error` gets the
        failure's text and the fixed apology is appended. In both cases every
        other message is unchanged and `loading` ends false. */
    method CompleteSend(outcome: ChatOutcome, now: string)
      requires Valid() && pending.Some?
      modifies this
      ensures Valid()
      ensures !loading && pending.None? && input == old(input) && nextId == old(nextId) + 1
      ensures var settled := SettleChat(outcome);
        && messages == MarkStatus(old(messages), old(pending).value.id, if settled.Ok? then Sent else Failed)
             + [ReplyMessage(settled, old(nextId), now)]
        && error == (if settled.Ok? then old(error) else Some(settled.error))
    {
      var id := pending.value.id;
      var settled := SettleChat(outcome);
      var st := if settled.Ok? then Sent else Failed;
      var marked := MarkStatus(messages, id, st);
      var reply := ReplyMessage(settled, nextId, now);
      ConsistentAfterComplete(messages, nextId, id, st, reply);
      messages := marked + [reply];
      if settled.Err? {
        error := Some(settled.error);
      }
      nextId := nextId + 1;
      loading := false;
      pending := None;
    }

    /** handleKeyDown: Enter without Shift, while not loading, starts a send
        exactly as BeginSend does; any other key changes nothing. */
    method HandleKeyDown(key: string, shiftKey: bool, now: string) returns (accepted: bool)
      requires Valid()
      modifies this
      ensures Valid()
      ensures accepted <==> (key == "Enter" && !shiftKey && !old(loading)
        && Text.Trim(old(input), Text.JsWhitespace) != [])
      ensures !accepted ==> (messages == old(messages) && input == old(input)
        && loading == old(loading) && error == old(error) && pending == old(pending)
        && nextId == old(nextId))
      ensures accepted ==>
        var m := Message(old(nextId), User, Text.Trim(old(input), Text.JsWhitespace), now, Sending);
        && messages == old(messages) + [m]
        && input == [] && loading && error.None? && nextId == old(nextId) + 1
        && pending == Some(PendingSend(m.id, ChatRequest(m.content, ConversationHistory(old(messages)))))
    {
      if key == "Enter" && !shiftKey && !loading {
        accepted := BeginSend(now);
      } else {
        accepted := false;
      }
    }

    /** sendMessage run to completion with nothing interleaved: an accepted send
        adds exactly two messages, the user's (settled) and the reply or the
        apology. */
    method SendMessage(outcome: ChatOutcome, now: string, later: string) returns (accepted: bool)
      requires Valid()
      modifies this
      ensures Valid() && loading == (old(loading) && !accepted)
      ensures accepted <==> Text.Trim(old(input), Text.JsWhitespace) != [] && !old(loading)
      ensures !accepted ==> (messages == old(messages) && input == old(input) && error == old(error)
        && pending == old(pending) && nextId == old(nextId))
      ensures accepted ==> pending.None? && nextId == old(nextId) + 2
      ensures accepted ==>
        var settled := SettleChat(outcome);
        var st := if settled.Ok? then Sent else Failed;
        && messages == old(messages)
             + [Message(old(nextId), User, Text.Trim(old(input), Text.JsWhitespace), now, st)]
             + [ReplyMessage(settled, old(nextId) + 1, later)]
        && input == []
        && error == (if settled.Ok? then None else Some(settled.error))
    {
      ghost var before := messages;
      accepted := BeginSend(now);
      if accepted {
        ghost var m := messages[|before|];
        ghost var st := if SettleChat(outcome).Ok? then Sent else Failed;
        assert messages == before + [m];
        MarkAppended(before, m, st);
        CompleteSend(outcome, later);
      }
    }

    /** retryMessage: a user message with status "error" is removed (only
        it, the rest stays in order) and its text goes back into the input; it is
        not resent. Any other id changes nothing. */
    method RetryMessage(id: MessageId) returns (retried: bool)
      requires Valid()
      modifies this`messages, this`input
      ensures Valid()
      ensures var f := Find(old(messages), id);
        retried <==> f.Some? && f.value.sender == User && f.value.status == Failed
      ensures retried ==> (messages == RemoveId(old(messages), id)
        && input == Find(old(messages), id).value.content)
      ensures retried ==> input != [] && Text.Trim(input, Text.JsWhitespace) == input
      ensures !retried ==> messages == old(messages) && input == old(input)
    {
      var f := Find(messages, id);
      if f.Some? && f.value.sender == User && f.value.status == Failed {
        var rest := RemoveId(messages, id);
        ConsistentAfterRemove(messages, nextId, PendingId(pending), id);
        FindSpec(messages, id);
        ghost var k :| 0 <= k < |messages| && messages[k] == f.value;
        assert MessageOk(messages[k], nextId, PendingId(pending));
        Text.TrimOfTrimmed(f.value.content, Text.JsWhitespace);
        messages := rest;
        input := f.value.content;
        retried := true;
      } else {
        retried := false;
      }
    }

    /** clearError: only `error` becomes null. */
    method ClearError()
      requires Valid()
      modifies this`error
      ensures Valid() && error.None?
    {
      error := None;
    }
  }
}
