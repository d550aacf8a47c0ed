/** process_with_openai and the history preparation of chat_endpoint
    (backend/main.py): the context handed to the model and the text taken out
    of its answer. The model call itself is described by its outcome. */
module BackendAi {
  import opened Wrappers
  import Text
  import opened BackendErrors

  /** One `{"role", "content"}` dict of the model's input. */
  datatype ContextMessage = ContextMessage(role: string, content: string)

  /** One ChatMessageRequest of the request's conversation_history. */
  datatype HistoryMessage = HistoryMessage(role: string, content: string, timestamp: Option<string>)

  const SystemPrompt :=
    "You are AeroAssist, a helpful airline assistant. Help users with flight information, bookings, and travel questions."

  /** The request history as the model sees it: each message's role and
      content, in order. */
  function HistoryContext(h: seq<HistoryMessage>): (c: seq<ContextMessage>)
    ensures |c| == |h|
  {
    if h == [] then [] else [ContextMessage(h[0].role, h[0].content)] + HistoryContext(h[1..])
  }

  /** Each entry keeps the role and the content of the message at its position. */
  lemma {:induction false} HistoryContextPointwise(h: seq<HistoryMessage>)
    ensures forall i :: 0 <= i < |h| ==> HistoryContext(h)[i] == ContextMessage(h[i].role, h[i].content)
  {
    if h != [] {
      HistoryContextPointwise(h[1..]);
      forall i | 0 <= i < |h| ensures HistoryContext(h)[i] == ContextMessage(h[i].role, h[i].content) {
        if i > 0 {
          assert HistoryContext(h)[i] == HistoryContext(h[1..])[i - 1];
        }
      }
    }
  }

  /** The loop of chat_endpoint that copies the request history for the model,
      dropping the timestamps. An absent or empty history gives none. */
  method ConversationForAi(history: Option<seq<HistoryMessage>>) returns (conv: seq<ContextMessage>)
    ensures history.None? ==> conv == []
    ensures history.Some? ==> conv == HistoryContext(history.value)
  {
    conv := [];
    if history.Some? && history.value != [] {
      var h := history.value;
      var i := 0;
      while i < |h|
        invariant 0 <= i <= |h| && |conv| == i
        invariant forall k :: 0 <= k < i ==> conv[k] == ContextMessage(h[k].role, h[k].content)
      {
        conv := conv + [ContextMessage(h[i].role, h[i].content)];
        i := i + 1;
      }
      HistoryContextPointwise(h);
    }
  }

  /** The context assembled by process_with_openai: the system prompt, then the
      given messages in order, then the user's message. */
  method BuildContext(messages: seq<ContextMessage>, userMessage: string) returns (ctx: seq<ContextMessage>)
    ensures |ctx| == |messages| + 2
    ensures ctx[0] == ContextMessage("system", SystemPrompt)
    ensures ctx[1..|ctx| - 1] == messages
    ensures ctx[|ctx| - 1] == ContextMessage("user", userMessage)
  {
    ctx := [ContextMessage("system", SystemPrompt)];
    ctx := ctx + messages;
    ctx := ctx + [ContextMessage("user", userMessage)];
  }

  /** One content part of an output item. */
  datatype ContentPart = ContentPart(kind: string, text: string)

  /** One item of `response.output`. */
  datatype OutputItem = OutputItem(kind: string, content: seq<ContentPart>)

  /** `response.usage`; its `total_tokens` may be absent. */
  datatype Usage = Usage(totalTokens: Option<int>)

  /** The parts of a Responses API answer the code reads. */
  datatype AiResponse = AiResponse(outputText: Option<string>, output: seq<OutputItem>, usage: Option<Usage>)

  /** The texts of the "output_text" parts of one item, in order. */
  function PartsText(parts: seq<ContentPart>): string
  {
    if parts == [] then []
    else (if parts[0].kind == "output_text" then parts[0].text else []) + PartsText(parts[1..])
  }

  /** The texts of the "output_text" parts of the "message" items, in order. */
  function OutputText(output: seq<OutputItem>): string
  {
    if output == [] then []
    else (if output[0].kind == "message" then PartsText(output[0].content) else []) + OutputText(output[1..])
  }

  lemma {:induction false} PartsTextAppend(parts: seq<ContentPart>, p: ContentPart)
    ensures PartsText(parts + [p]) == PartsText(parts) + (if p.kind == "output_text" then p.text else [])
  {
    if parts != [] {
      assert (parts + [p])[1..] == parts[1..] + [p];
      PartsTextAppend(parts[1..], p);
      Text.AppendAssoc(if parts[0].kind == "output_text" then parts[0].text else [], PartsText(parts[1..]),
                       if p.kind == "output_text" then p.text else []);
    }
  }

  lemma {:induction false} OutputTextAppend(output: seq<OutputItem>, o: OutputItem)
    ensures OutputText(output + [o]) == OutputText(output) + (if o.kind == "message" then PartsText(o.content) else [])
  {
    if output != [] {
      assert (output + [o])[1..] == output[1..] + [o];
      OutputTextAppend(output[1..], o);
      Text.AppendAssoc(if output[0].kind == "message" then PartsText(output[0].content) else [], OutputText(output[1..]),
                       if o.kind == "message" then PartsText(o.content) else []);
    }
  }

  /** Python truthiness of `response.output_text`. */
  predicate HasOutputText(r: AiResponse)
  {
    r.outputText.Some? && r.outputText.value != []
  }

  /** The text the extraction loop arrives at, before it is stripped. */
  function ReplyText(r: AiResponse): string
  {
    if HasOutputText(r) then r.outputText.value else OutputText(r.output)
  }

  /** The extraction loop: `output_text` when it is non-empty, otherwise the
      concatenation, in order, of the "output_text" parts of the "message" items. */
  method ExtractText(r: AiResponse) returns (finalText: string)
    ensures HasOutputText(r) ==> finalText == r.outputText.value
    ensures !HasOutputText(r) ==> finalText == OutputText(r.output)
  {
    finalText := [];
    if HasOutputText(r) {
      finalText := r.outputText.value;
      return;
    }
    var i := 0;
    while i < |r.output|
      invariant 0 <= i <= |r.output|
      invariant finalText == OutputText(r.output[..i])
    {
      var item := r.output[i];
      if item.kind == "message" {
        // the texts of this item's parts, appended to final_text as a whole
        var itemText := [];
        var j := 0;
        while j < |item.content|
          invariant 0 <= j <= |item.content|
          invariant itemText == PartsText(item.content[..j])
        {
          var part := item.content[j];
          if part.kind == "output_text" {
            itemText := itemText + part.text;
          }
          PartsTextAppend(item.content[..j], part);
          assert item.content[..j + 1] == item.content[..j] + [part];
          j := j + 1;
        }
        assert item.content[..j] == item.content;
        finalText := finalText + itemText;
      }
      OutputTextAppend(r.output[..i], item);
      assert r.output[..i + 1] == r.output[..i] + [item];
      i := i + 1;
    }
    assert r.output[..i] == r.output;
  }

  /** `getattr(response.usage, 'total_tokens', 0)`, 0 without usage. */
  function TokensUsed(r: AiResponse): (n: int)
    ensures r.usage.None? || r.usage.value.totalTokens.None? ==> n == 0
    ensures r.usage.Some? && r.usage.value.totalTokens.Some? ==> n == r.usage.value.totalTokens.value
  {
    if r.usage.Some? && r.usage.value.totalTokens.Some? then r.usage.value.totalTokens.value else 0
  }

  /** What `openai_client.responses.create(...)` did. */
  datatype AiOutcome = AiAnswered(response: AiResponse) | AiRaised(message: string)

  datatype AiReply = AiReply(reply: string, tokensUsed: int)

  /** process_with_openai: builds the context, fails with 500 "AI processing
      error: ..." when the client is missing or the call raises, and otherwise
      returns the extracted text, stripped, and the token count. */
  method ProcessWithOpenai(messages: seq<ContextMessage>, userMessage: string, clientReady: bool, outcome: AiOutcome)
    returns (sent: seq<ContextMessage>, r: Result<AiReply, HttpError>)
    ensures sent == [ContextMessage("system", SystemPrompt)] + messages + [ContextMessage("user", userMessage)]
    ensures !clientReady ==> r == Err(Raise(500, "AI processing error: " + "OpenAI client not initialized"))
    ensures clientReady && outcome.AiRaised? ==> r == Err(Raise(500, "AI processing error: " + outcome.message))
    ensures clientReady && outcome.AiAnswered? ==>
      var resp := outcome.response;
      r == Ok(AiReply(Text.Trim(ReplyText(resp), Text.PyWhitespace), TokensUsed(resp)))
    ensures r.Ok? ==> Text.Trimmed(r.value.reply, Text.PyWhitespace)
  {
    sent := BuildContext(messages, userMessage);
    assert sent == [sent[0]] + sent[1..|sent| - 1] + [sent[|sent| - 1]];
    if !clientReady {
      return sent, Err(Raise(500, "AI processing error: " + "OpenAI client not initialized"));
    }
    match outcome
    case AiRaised(m) =>
      r := Err(Raise(500, "AI processing error: " + m));
    case AiAnswered(resp) =>
      var text := ExtractText(resp);
      Text.TrimTrimmed(text, Text.PyWhitespace);
      r := Ok(AiReply(Text.Trim(text, Text.PyWhitespace), TokensUsed(resp)));
  }
}
