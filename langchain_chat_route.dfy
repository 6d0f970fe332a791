/** The chat route of the LangChain MCP app: the last incoming message is flattened to
    text and handed to a tool-using agent; the route then streams the user's text, the
    agent's reply and, when the reply names a tool, a notification.

    The agent (its model and its MCP tools) and the id generator are parameters: the agent
    is a function from the user's text to the messages it returns, or to nothing when it
    fails. */
module LangchainChatRoute {
  import opened Wrappers
  import opened Text

  /** A part of an incoming message: its type and its `text`. */
  datatype InPart = InPart(kind: string, text: Option<string>)

  /** A message's `content`: a string, an array of items with an optional `text`, or
      something else. */
  datatype Content = Str(s: string) | Items(texts: seq<Option<string>>) | NoText

  datatype RawMessage = RawMessage(role: string, parts: seq<InPart>, content: Content)

  /** `array.join` writes a missing element as the empty string. */
  function OrEmpty(s: Option<string>): string {
    if s.Some? then s.value else ""
  }

  /** The texts of the `text` parts, missing ones as empty strings. */
  function TextPartTexts(parts: seq<InPart>): (r: seq<string>)
    ensures |r| <= |parts|
    ensures forall t :: t in r ==> exists i :: 0 <= i < |parts| && parts[i].kind == "text" && OrEmpty(parts[i].text) == t
    ensures forall i :: 0 <= i < |parts| && parts[i].kind == "text" ==> OrEmpty(parts[i].text) in r
  {
    if parts == [] then []
    else
      assert forall i :: 1 <= i < |parts| ==> parts[1..][i - 1] == parts[i];
      (if parts[0].kind == "text" then [OrEmpty(parts[0].text)] else []) + TextPartTexts(parts[1..])
  }

  /** The non-empty item texts, in order. */
  function ItemTexts(texts: seq<Option<string>>): (r: seq<string>)
    ensures |r| <= |texts|
    ensures forall t :: t in r <==> Some(t) in texts && t != ""
  {
    if texts == [] then []
    else (if texts[0].Some? && texts[0].value != "" then [texts[0].value] else []) + ItemTexts(texts[1..])
  }

  /** The text parts are taken one by one: those of two part lists in a row are those of
      the first followed by those of the second. With TextPartTextsOne this fixes the
      result's order and multiplicity. */
  lemma {:induction false} TextPartTextsAppend(a: seq<InPart>, b: seq<InPart>)
    ensures TextPartTexts(a + b) == TextPartTexts(a) + TextPartTexts(b)
  {
    if a == [] {
      assert a + b == b;
    } else {
      assert (a + b)[0] == a[0] && (a + b)[1..] == a[1..] + b;
      TextPartTextsAppend(a[1..], b);
    }
  }

  /** A single part gives its text exactly when it is a `text` part. */
  lemma TextPartTextsOne(p: InPart)
    ensures TextPartTexts([p]) == if p.kind == "text" then [OrEmpty(p.text)] else []
  {
    assert [p][1..] == [];
  }

  /** The item texts are taken one by one in the same way; with ItemTextsOne this fixes
      the result's order and multiplicity. */
  lemma {:induction false} ItemTextsAppend(a: seq<Option<string>>, b: seq<Option<string>>)
    ensures ItemTexts(a + b) == ItemTexts(a) + ItemTexts(b)
  {
    if a == [] {
      assert a + b == b;
    } else {
      assert (a + b)[0] == a[0] && (a + b)[1..] == a[1..] + b;
      ItemTextsAppend(a[1..], b);
    }
  }

  /** A single item gives its text exactly when the text is present and not empty. */
  lemma ItemTextsOne(x: Option<string>)
    ensures ItemTexts([x]) == if x.Some? && x.value != "" then [x.value] else []
  {
    assert [x][1..] == [];
  }

  /** `normalizeUserMessage`: with parts, the text parts' texts joined by spaces; else,
      for an array content, its non-empty texts joined by spaces; else the content as it
      is (nothing, when it is not a string). */
  function NormalizeUserMessage(m: RawMessage): (r: Option<string>)
    ensures m.parts != [] ==> r == Some(Join(TextPartTexts(m.parts), " "))
    ensures m.parts == [] && m.content.Items? ==> r == Some(Join(ItemTexts(m.content.texts), " "))
    ensures m.parts == [] && m.content.Str? ==> r == Some(m.content.s)
    ensures m.parts == [] && m.content.NoText? ==> r == None
  {
    if m.parts != [] then Some(Join(TextPartTexts(m.parts), " "))
    else match m.content
      case Items(texts) => Some(Join(ItemTexts(texts), " "))
      case Str(s) => Some(s)
      case NoText => None
  }

  /** A message the agent returns: its type, content and the tool name it may carry. */
  datatype AgentMessage = AgentMessage(kind: string, content: Content, name: Option<string>)

  predicate FromModel(m: AgentMessage) {
    m.kind != "HumanMessage" && m.kind != "ToolMessage"
  }

  /** No message after position `i` comes from the model. */
  predicate Unanswered(ms: seq<AgentMessage>, i: nat) {
    forall j :: i < j < |ms| ==> !FromModel(ms[j])
  }

  /** `invokeAgent`'s choice: the last returned message that is neither the user's nor a
      tool's. */
  function LastAiMessage(ms: seq<AgentMessage>): (r: Option<AgentMessage>)
    ensures r.None? <==> forall i :: 0 <= i < |ms| ==> !FromModel(ms[i])
    ensures r.Some? ==> exists i :: 0 <= i < |ms| && ms[i] == r.value && FromModel(ms[i]) && Unanswered(ms, i)
  {
    if ms == [] then None
    else if FromModel(ms[|ms| - 1]) then Some(ms[|ms| - 1])
    else
      var init := ms[..|ms| - 1];
      var r := LastAiMessage(init);
      assert forall i :: 0 <= i < |init| ==> init[i] == ms[i];
      assert forall i :: 0 <= i < |init| && Unanswered(init, i) ==> Unanswered(ms, i);
      r
  }

  /** What the route writes to the UI stream. */
  datatype StreamPart =
    | Fact(content: Option<string>, id: string)
    | Notification(message: string, level: string, transient: bool)

  /** The stream the route answers with. */
  class Writer {
    var written: seq<StreamPart>

    constructor ()
      ensures written == []
    {
      written := [];
    }

    method Write(p: StreamPart)
      modifies this
      ensures written == old(written) + [p]
    {
      written := written + [p];
    }
  }

  /** The reply's text: a string content as it is, the non-empty item texts joined by
      spaces, or nothing. */
  function AiContent(c: Content): string {
    match c
    case Str(s) => s
    case Items(texts) => Join(ItemTexts(texts), " ")
    case NoText => ""
  }

  /** The parts `streamMessages` writes, in order. */
  function StreamedParts(normalized: Option<string>, ai: Option<AgentMessage>, userId: string, aiId: string): seq<StreamPart> {
    [Fact(normalized, userId)]
    + if ai.None? then []
      else [Fact(Some(AiContent(ai.value.content)), aiId)]
           + if ai.value.name.Some? && ai.value.name.value != "" then [Notification("Tool used: " + ai.value.name.value, "info", true)] else []
  }

  /** Writes the user's text first and stops there when the agent gave no reply; then the
      reply's text, then a notification naming the tool when the reply carries one. */
  method StreamMessages(w: Writer, normalized: Option<string>, ai: Option<AgentMessage>, userId: string, aiId: string)
    modifies w
    ensures w.written == old(w.written) + StreamedParts(normalized, ai, userId, aiId)
  {
    w.Write(Fact(normalized, userId));
    if ai.None? {
      return;
    }
    w.Write(Fact(Some(AiContent(ai.value.content)), aiId));
    if ai.value.name.Some? && ai.value.name.value != "" {
      w.Write(Notification("Tool used: " + ai.value.name.value, "info", true));
    }
  }

  /** The request body: `messages`, and an `input` already turned into a string. */
  datatype Body = Body(messages: Option<seq<RawMessage>>, input: Option<string>)

  datatype Reply = BadRequest(error: string) | Streamed(parts: seq<StreamPart>) | ServerError

  /** The messages the route works on: the body's list, else one user message made of the
      input, else none. */
  function RawMessages(b: Body): seq<RawMessage> {
    if b.messages.Some? then b.messages.value
    else if b.input.Some? && b.input.value != "" then [RawMessage("user", [], Str(b.input.value))]
    else []
  }

  /** The route. Without messages it answers 400. Otherwise only the last message is
      normalised and sent to the agent; a failing agent gives 500, and a working one a
      stream of the parts above. */
  method Post(b: Body, agent: string -> Option<seq<AgentMessage>>, userId: string, aiId: string) returns (reply: Reply)
    ensures RawMessages(b) == [] <==> reply == BadRequest("No messages provided.")
    ensures RawMessages(b) != [] ==>
      var normalized := NormalizeUserMessage(RawMessages(b)[|RawMessages(b)| - 1]);
      var answer := agent(OrEmpty(normalized));
      && (answer.None? ==> reply == ServerError)
      && (answer.Some? ==> reply == Streamed(StreamedParts(normalized, LastAiMessage(answer.value), userId, aiId)))
  {
    var raw := RawMessages(b);
    if raw == [] {
      return BadRequest("No messages provided.");
    }
    var normalized := NormalizeUserMessage(raw[|raw| - 1]);
    var answer := agent(OrEmpty(normalized));
    if answer.None? {
      return ServerError;
    }
    var ai := LastAiMessage(answer.value);
    var w := new Writer();
    StreamMessages(w, normalized, ai, userId, aiId);
    reply := Streamed(w.written);
  }

  /** An empty message list in the body is not replaced by the input: it is answered with
      400 even when an input is given. */
  lemma EmptyListWinsOverInput(input: string)
    ensures RawMessages(Body(Some([]), Some(input))) == []
  {
  }

  /** The stream always starts with the user's text, and a tool notification is written
      only for a reply that names a tool. */
  lemma StreamShape(normalized: Option<string>, ai: Option<AgentMessage>, userId: string, aiId: string)
    ensures var ps := StreamedParts(normalized, ai, userId, aiId);
      && ps[0] == Fact(normalized, userId)
      && |ps| == (if ai.None? then 1 else if ai.value.name.Some? && ai.value.name.value != "" then 3 else 2)
      && (forall i :: 0 <= i < |ps| && ps[i].Notification? ==> i == 2 && ai.Some? && ai.value.name.Some?)
  {
  }
}
