/** The request building and response handling of the Claude API client:
    the message list and tool list a request carries, the text and tool-use
    queries on a response, and the tool-use loop that turns each tool call of
    a response into a `tool_result` item. The HTTP request itself, the
    system prompt (which reads the clock) and logging are not modelled. */
module ClaudeApi {
  import opened Wrappers
  import opened Json
  import opened McpTypes

  /** The model and token limit every request names. */
  const MODEL := "claude-3-5-sonnet-20241022"
  const MAX_TOKENS := 4096

  datatype Role = User | Assistant

  datatype ContentType = Text | ToolUse | ToolResult

  /** One content item of a message; every member but `type` is optional. */
  datatype Content = Content(
    ctype: ContentType,
    text: Option<string>,
    id: Option<string>,
    name: Option<string>,
    input: Option<Json>,
    toolUseId: Option<string>,
    content: Option<string>,
    isError: Option<bool>)

  /** A conversation-history entry: a role and plain text. */
  datatype Message = Message(role: Role, content: string)

  /** A message as a request carries it. */
  datatype RequestMessage = RequestMessage(role: Role, content: seq<Content>)

  /** A tool as a request advertises it. */
  datatype ToolSpec = ToolSpec(name: string, description: string, inputSchema: Json)

  /** The request body; `tools` is `None` when the member is left undefined. */
  datatype Request = Request(
    model: string,
    maxTokens: int,
    messages: seq<RequestMessage>,
    tools: Option<seq<ToolSpec>>,
    system: string)

  /** What the tool executor's promise settles with: a value, or a rejection
      carrying an error message. */
  datatype ExecOutcome = Succeeded(value: Json) | Failed(message: string)

  /** A text content item. */
  function TextItem(s: string): Content {
    Content(Text, Some(s), None, None, None, None, None, None)
  }

  /** A text-content filter: the item's text, an absent one joining as "". */
  function TextOf(c: Content): string {
    if c.ctype == Text then c.text.GetOr("") else ""
  }

  /** `getTextContent`: the texts of the text items, joined in order. */
  function GetTextContent(cs: seq<Content>): string {
    if cs == [] then "" else GetTextContent(cs[..|cs| - 1]) + TextOf(cs[|cs| - 1])
  }

  /** The text of a response is the text of its parts, in order, and an item
      contributes only when it is a text item. */
  lemma {:induction false} GetTextContentAppend(a: seq<Content>, b: seq<Content>)
    ensures GetTextContent(a + b) == GetTextContent(a) + GetTextContent(b)
    decreases |b|
  {
    if b == [] {
      assert a + b == a;
    } else {
      var b' := b[..|b| - 1];
      assert (a + b)[..|a + b| - 1] == a + b';
      assert (a + b)[|a + b| - 1] == b[|b| - 1];
      GetTextContentAppend(a, b');
    }
  }

  lemma GetTextContentOne(c: Content)
    ensures GetTextContent([c]) == (if c.ctype == Text then c.text.GetOr("") else "")
  {
    assert [c][..0] == [];
  }

  /** `hasToolUse`: whether some item is a tool call. */
  function HasToolUse(cs: seq<Content>): (b: bool)
    ensures b <==> exists i :: 0 <= i < |cs| && cs[i].ctype == ToolUse
  {
    if cs == [] then false
    else if cs[0].ctype == ToolUse then true
    else
      var b := HasToolUse(cs[1..]);
      assert forall i :: 1 <= i < |cs| ==> cs[i] == cs[1..][i - 1];
      b
  }

  /** A response without a tool call has no tool results. */
  lemma NoToolUseNoResults(cs: seq<Content>, exec: (string, Json) -> ExecOutcome, stringify: Json -> string)
    requires !HasToolUse(cs)
    ensures ToolResults(cs, exec, stringify) == []
  {
    if cs != [] {
      var init := cs[..|cs| - 1];
      assert forall i :: 0 <= i < |init| ==> init[i] == cs[i];
      assert cs[|cs| - 1].ctype != ToolUse;
      NoToolUseNoResults(init, exec, stringify);
    }
  }

  /** The items the tool loop acts on: tool calls with a non-empty name and
      a non-empty id. */
  predicate IsToolCall(c: Content) {
    c.ctype == ToolUse && c.name.Some? && c.name.value != "" && c.id.Some? && c.id.value != ""
  }

  /** The arguments the executor receives: the input, or `{}` when it is
      missing or falsy. */
  function ArgsOf(c: Content): Json {
    if c.input.Some? && Truthy(c.input.value) then c.input.value else JObj([])
  }

  /** The `tool_result` item for one tool call. A string result is the
      content itself, any other result its serialisation; a failure becomes
      an `Error: …` content flagged as an error. */
  function ResultFor(c: Content, exec: (string, Json) -> ExecOutcome, stringify: Json -> string): Content
    requires IsToolCall(c)
  {
    match exec(c.name.value, ArgsOf(c))
    case Succeeded(v) =>
      Content(ToolResult, None, None, None, None, Some(c.id.value),
              Some(if v.JStr? then v.s else stringify(v)), None)
    case Failed(m) =>
      Content(ToolResult, None, None, None, None, Some(c.id.value), Some("Error: " + m), Some(true))
  }

  /** The tool calls of a content list, in order. */
  function ToolCalls(cs: seq<Content>): (r: seq<Content>)
    ensures forall j :: 0 <= j < |r| ==> IsToolCall(r[j])
  {
    if cs == [] then []
    else ToolCalls(cs[..|cs| - 1]) + (if IsToolCall(cs[|cs| - 1]) then [cs[|cs| - 1]] else [])
  }

  /** The results the tool loop collects over a content list. */
  function ToolResults(cs: seq<Content>, exec: (string, Json) -> ExecOutcome, stringify: Json -> string): seq<Content> {
    if cs == [] then []
    else
      ToolResults(cs[..|cs| - 1], exec, stringify)
        + (if IsToolCall(cs[|cs| - 1]) then [ResultFor(cs[|cs| - 1], exec, stringify)] else [])
  }

  /** The tool calls of a concatenation are those of its parts: the calls
      keep content order and other items contribute nothing. */
  lemma {:induction false} ToolCallsAppend(a: seq<Content>, b: seq<Content>)
    ensures ToolCalls(a + b) == ToolCalls(a) + ToolCalls(b)
    decreases |b|
  {
    if b == [] {
      assert a + b == a;
    } else {
      var b' := b[..|b| - 1];
      assert (a + b)[..|a + b| - 1] == a + b';
      assert (a + b)[|a + b| - 1] == b[|b| - 1];
      ToolCallsAppend(a, b');
    }
  }

  /** A single item is a tool call of its list exactly when it passes the
      name-and-id test. */
  lemma ToolCallsOne(c: Content)
    ensures ToolCalls([c]) == (if IsToolCall(c) then [c] else [])
  {
    assert [c][..0] == [];
  }

  /** Exactly one result per tool call, in order: the j-th result answers the
      j-th tool call, carries its id, and holds the executor's outcome for
      its name and arguments. */
  lemma {:induction false} ToolResultsAnswerToolCalls(cs: seq<Content>, exec: (string, Json) -> ExecOutcome, stringify: Json -> string)
    ensures |ToolResults(cs, exec, stringify)| == |ToolCalls(cs)|
    ensures forall j :: 0 <= j < |ToolCalls(cs)| ==>
      ToolResults(cs, exec, stringify)[j] == ResultFor(ToolCalls(cs)[j], exec, stringify)
  {
    if cs != [] {
      ToolResultsAnswerToolCalls(cs[..|cs| - 1], exec, stringify);
    }
  }

  /** What a tool result says, in terms of the tool call it answers. */
  lemma ResultForAnswers(c: Content, exec: (string, Json) -> ExecOutcome, stringify: Json -> string)
    requires IsToolCall(c)
    ensures var r := ResultFor(c, exec, stringify);
      && r.ctype == ToolResult
      && r.toolUseId == c.id
      && (!(c.input.Some? && Truthy(c.input.value)) ==> ArgsOf(c) == JObj([]))
      && (c.input.Some? && Truthy(c.input.value) ==> ArgsOf(c) == c.input.value)
      && match exec(c.name.value, ArgsOf(c))
         case Succeeded(JStr(s)) => r.content == Some(s) && r.isError.None?
         case Succeeded(v) => r.content == Some(stringify(v)) && r.isError.None?
         case Failed(m) => r.content == Some("Error: " + m) && r.isError == Some(true)
  {
  }

  /** `handleToolUse`: runs the executor once per tool call, in content
      order, and collects one result per call. The executor is a function of
      the tool name and arguments, and `stringify` stands for
      `JSON.stringify(value, null, 2)`. */
  method HandleToolUse(content: seq<Content>, exec: (string, Json) -> ExecOutcome, stringify: Json -> string)
    returns (results: seq<Content>)
    ensures results == ToolResults(content, exec, stringify)
    ensures |results| == |ToolCalls(content)|
    ensures forall j :: 0 <= j < |results| ==>
      results[j].ctype == ToolResult && results[j].toolUseId == ToolCalls(content)[j].id
  {
    results := [];
    for i := 0 to |content|
      invariant results == ToolResults(content[..i], exec, stringify)
    {
      assert content[..i + 1][..i] == content[..i];
      if IsToolCall(content[i]) {
        results := results + [ResultFor(content[i], exec, stringify)];
      }
    }
    assert content[..|content|] == content;
    ToolResultsAnswerToolCalls(content, exec, stringify);
  }

  /** A history entry as a request message: its text as one text item. */
  function HistoryMessage(m: Message): RequestMessage {
    RequestMessage(m.role, [TextItem(m.content)])
  }

  /** The history part of a request's message list: one message per entry,
      in order, with the entry's role, holding one text item whose text
      reads back as the entry's text. */
  function HistoryMessages(history: seq<Message>): (r: seq<RequestMessage>)
    ensures |r| == |history|
    ensures CarriesHistory(r, history)
    ensures forall i :: 0 <= i < |history| ==> |r[i].content| == 1 && r[i].content[0].ctype == Text
  {
    var r := seq(|history|, i requires 0 <= i < |history| => HistoryMessage(history[i]));
    assert CarriesHistory(r, history) by {
      forall i | 0 <= i < |history|
        ensures GetTextContent(r[i].content) == history[i].content
      {
        GetTextContentOne(TextItem(history[i].content));
      }
    }
    r
  }

  /** The first messages of `ms` carry the conversation history: each
      entry's role, and its text as the text content of the message. */
  predicate CarriesHistory(ms: seq<RequestMessage>, history: seq<Message>) {
    && |history| <= |ms|
    && forall i :: 0 <= i < |history| ==>
         ms[i].role == history[i].role && GetTextContent(ms[i].content) == history[i].content
  }

  /** The `tools` member of a request advertises exactly `tools`: it is left
      out when there are none, and otherwise holds one spec per tool, in
      order, each reading back as its tool (name, description and schema). */
  predicate Advertises(specs: Option<seq<ToolSpec>>, tools: seq<McpTool>) {
    && (specs.None? <==> tools == [])
    && (specs.Some? ==>
          |specs.value| == |tools| && forall i :: 0 <= i < |tools| ==> ToolOf(specs.value[i]) == tools[i])
  }

  /** The message list of `sendMessage`: the history, then the user
      message. */
  function SendMessages(history: seq<Message>, userMessage: string): seq<RequestMessage> {
    HistoryMessages(history) + [RequestMessage(User, [TextItem(userMessage)])]
  }

  /** Reading the text back out of every message of a `sendMessage` list
      gives the history and then the user message, with their roles. */
  lemma SendMessagesCarryTheConversation(history: seq<Message>, userMessage: string)
    ensures var ms := SendMessages(history, userMessage);
      && |ms| == |history| + 1
      && (forall i :: 0 <= i < |history| ==>
            ms[i].role == history[i].role && GetTextContent(ms[i].content) == history[i].content)
      && ms[|history|].role == User
      && GetTextContent(ms[|history|].content) == userMessage
  {
    var ms := SendMessages(history, userMessage);
    forall i | 0 <= i < |history|
      ensures GetTextContent(ms[i].content) == history[i].content
    {
      GetTextContentOne(TextItem(history[i].content));
    }
    GetTextContentOne(TextItem(userMessage));
  }

  /** A tool as advertised to the model. */
  function SpecOf(t: McpTool): ToolSpec {
    ToolSpec(t.name, t.description, t.inputSchema)
  }

  /** The tool descriptor a tool spec advertises. */
  function ToolOf(s: ToolSpec): McpTool {
    McpTool(s.name, s.description, s.inputSchema)
  }

  /** The `tools` member of a request: left out for an empty list, otherwise
      one spec per tool, in order. */
  function BuildTools(tools: seq<McpTool>): Option<seq<ToolSpec>> {
    if |tools| > 0 then Some(seq(|tools|, i requires 0 <= i < |tools| => SpecOf(tools[i]))) else None
  }

  /** The tool list is omitted exactly when there are no tools, and reading
      the specs back gives the tools unchanged (`input_schema` is the
      `inputSchema`). */
  lemma BuildToolsRoundTrip(tools: seq<McpTool>)
    ensures BuildTools(tools).None? <==> tools == []
    ensures BuildTools(tools).Some? ==>
      var specs := BuildTools(tools).value;
      && |specs| == |tools|
      && (forall i :: 0 <= i < |specs| ==> specs[i].inputSchema == tools[i].inputSchema)
      && seq(|specs|, i requires 0 <= i < |specs| => ToolOf(specs[i])) == tools
  {
  }

  /** The request `sendMessage` posts; the system prompt is a parameter. */
  function SendRequest(userMessage: string, tools: seq<McpTool>, history: seq<Message>, system: string): (r: Request)
    ensures r.model == MODEL && r.maxTokens == MAX_TOKENS && r.system == system
    ensures |r.messages| == |history| + 1 && CarriesHistory(r.messages, history)
    ensures r.messages[|history|] == RequestMessage(User, [TextItem(userMessage)])
    ensures GetTextContent(r.messages[|history|].content) == userMessage
    ensures Advertises(r.tools, tools)
  {
    SendMessagesCarryTheConversation(history, userMessage);
    BuildToolsRoundTrip(tools);
    Request(MODEL, MAX_TOKENS, SendMessages(history, userMessage), BuildTools(tools), system)
  }

  /** The message list of `continueConversation`: the history, the
      assistant's original content, then the tool results as a user
      message. */
  function ContinueMessages(original: seq<Content>, toolResults: seq<Content>, history: seq<Message>): seq<RequestMessage> {
    HistoryMessages(history) + [RequestMessage(Assistant, original), RequestMessage(User, toolResults)]
  }

  /** The continuation repeats the history exactly as the first request
      sent it, and then ends with the assistant's turn and the results. */
  lemma ContinueMessagesExtendTheHistory(original: seq<Content>, toolResults: seq<Content>, history: seq<Message>, userMessage: string)
    ensures var ms := ContinueMessages(original, toolResults, history);
      && |ms| == |history| + 2
      && ms[..|history|] == SendMessages(history, userMessage)[..|history|]
      && ms[|history|] == RequestMessage(Assistant, original)
      && ms[|history| + 1] == RequestMessage(User, toolResults)
  {
    var ms := ContinueMessages(original, toolResults, history);
    assert ms[..|history|] == HistoryMessages(history);
    assert SendMessages(history, userMessage)[..|history|] == HistoryMessages(history);
  }

  /** The request `continueConversation` posts. */
  function ContinueRequest(original: seq<Content>, toolResults: seq<Content>, history: seq<Message>, tools: seq<McpTool>, system: string): (r: Request)
    ensures r.model == MODEL && r.maxTokens == MAX_TOKENS && r.system == system
    ensures |r.messages| == |history| + 2 && CarriesHistory(r.messages, history)
    ensures r.messages[|history|] == RequestMessage(Assistant, original)
    ensures r.messages[|history| + 1] == RequestMessage(User, toolResults)
    ensures Advertises(r.tools, tools)
  {
    BuildToolsRoundTrip(tools);
    Request(MODEL, MAX_TOKENS, ContinueMessages(original, toolResults, history), BuildTools(tools), system)
  }

  /** A tool round trip: continuing with the results of `handleToolUse`
      answers every tool call of the original response, in order, by id. */
  lemma ContinuationAnswersEveryToolCall(original: seq<Content>, history: seq<Message>, exec: (string, Json) -> ExecOutcome, stringify: Json -> string)
    ensures var ms := ContinueMessages(original, ToolResults(original, exec, stringify), history);
      var answer := ms[|ms| - 1].content;
      && ms[|ms| - 1].role == User
      && |answer| == |ToolCalls(original)|
      && forall j :: 0 <= j < |answer| ==>
           answer[j].ctype == ToolResult && answer[j].toolUseId == ToolCalls(original)[j].id
  {
    ToolResultsAnswerToolCalls(original, exec, stringify);
  }
}
