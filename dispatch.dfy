/**
 * The `tool_use` node of the agent: every tool call of the newest AI message is
 * answered by exactly one tool message carrying the call's id, in call order. A
 * `write_file` call without content first goes through the auto-fix; an unknown tool,
 * a `write_file` call that still has no content, and an exception raised by the tool
 * all become text in the answer instead of propagating.
 */
module Dispatch {
  import opened Common
  import opened Text
  import opened Messages
  import opened Recovery

  /** What `tool.invoke(args)` does: return a value (given as its `str`) or raise an
      exception (given as its `str`). */
  datatype Invocation = Returned(output: String) | Raised(error: String)

  /** A registered tool: its name and its behaviour, which the agent cannot see into. */
  datatype Tool = Tool(name: String, invoke: Args -> Invocation)

  /** `next((t for t in self.tools if t.name == tool_name), None)`, as an index. */
  function ToolIndex(tools: seq<Tool>, name: String): (r: int)
    ensures -1 <= r < |tools|
    ensures r >= 0 ==> tools[r].name == name && forall j :: 0 <= j < r ==> tools[j].name != name
    ensures r == -1 ==> forall j :: 0 <= j < |tools| ==> tools[j].name != name
  {
    if |tools| == 0 then -1
    else if tools[|tools| - 1].name == name && ToolIndex(tools[..|tools| - 1], name) == -1 then |tools| - 1
    else ToolIndex(tools[..|tools| - 1], name)
  }

  // ---------------------------------------------------------------------------
  // The reply text the auto-fix reads

  /** A message the `last_response_content` loop accepts: it has content and no
      `tool_calls` attribute. Every AI message has that attribute, so only human, system
      and tool messages qualify. */
  predicate Qualifies(m: Message) {
    m.content != "" && !HasToolCallsAttribute(m)
  }

  /** The content of the newest qualifying message among the first `i`, or "". */
  function LastResponseBefore(ms: seq<Message>, i: nat): String
    requires i <= |ms|
  {
    if i == 0 then ""
    else if Qualifies(ms[i - 1]) then ms[i - 1].content
    else LastResponseBefore(ms, i - 1)
  }

  function LastResponse(ms: seq<Message>): String {
    LastResponseBefore(ms, |ms|)
  }

  /** The loop over `reversed(messages)`. */
  method LastResponseContent(messages: seq<Message>) returns (lastResponseContent: String)
    ensures lastResponseContent == LastResponse(messages)
  {
    lastResponseContent := "";
    var i := |messages|;
    while i > 0
      invariant 0 <= i <= |messages|
      invariant LastResponse(messages) == LastResponseBefore(messages, i)
    {
      var msg := messages[i - 1];
      if msg.content != "" && !HasToolCallsAttribute(msg) {
        lastResponseContent := msg.content;
        break;
      }
      i := i - 1;
    }
  }

  /** The text is that of the newest qualifying message, and "" exactly when none
      qualifies. */
  lemma {:induction false} LastResponseIsNewest(ms: seq<Message>, i: nat)
    requires i <= |ms|
    ensures LastResponseBefore(ms, i) == "" <==> forall k :: 0 <= k < i ==> !Qualifies(ms[k])
    ensures LastResponseBefore(ms, i) != "" ==>
              exists k :: 0 <= k < i && Qualifies(ms[k]) && ms[k].content == LastResponseBefore(ms, i)
                          && forall j :: k < j < i ==> !Qualifies(ms[j])
  {
    if i > 0 && !Qualifies(ms[i - 1]) {
      LastResponseIsNewest(ms, i - 1);
    }
  }

  /** Only the first `i` messages matter. */
  lemma {:induction false} LastResponseBeforePrefix(a: seq<Message>, b: seq<Message>, i: nat)
    requires i <= |a| && i <= |b| && a[..i] == b[..i]
    ensures LastResponseBefore(a, i) == LastResponseBefore(b, i)
  {
    if i > 0 {
      assert a[i - 1] == a[..i][i - 1] == b[..i][i - 1] == b[i - 1];
      assert a[..i - 1] == a[..i][..i - 1];
      assert b[..i - 1] == b[..i][..i - 1];
      LastResponseBeforePrefix(a, b, i - 1);
    }
  }

  /** An AI message never supplies the text: adding one changes nothing. In particular
      the reply that requested the tools is not where the auto-fix looks. */
  lemma LastResponseIgnoresReplies(ms: seq<Message>, m: Message)
    requires m.AIMessage?
    ensures LastResponse(ms + [m]) == LastResponse(ms)
  {
    assert (ms + [m])[..|ms|] == ms[..|ms|];
    LastResponseBeforePrefix(ms + [m], ms, |ms|);
  }

  // ---------------------------------------------------------------------------
  // One tool call

  /** `list(tool_args.keys())` as Python prints it, for keys that need no escaping. */
  function KeysRepr(keys: seq<String>): String {
    "[" + QuotedKeys(keys) + "]"
  }

  function QuotedKeys(keys: seq<String>): String {
    if |keys| == 0 then ""
    else if |keys| == 1 then "'" + keys[0] + "'"
    else "'" + keys[0] + "', " + QuotedKeys(keys[1..])
  }

  /** The answer to a `write_file` call that still has no content: it names the keys the
      call did give and, twice, the file path (or "unknown"). */
  function MissingContentError(args: Args): String {
    var filePath := GetArg(args, "file_path").GetOr("unknown");
    MissingContentIntro(KeysRepr(ArgKeys(args))) + PathField(filePath) + MissingContentSteps(filePath)
  }

  function PathField(filePath: String): String {
    "file_path: \"" + filePath + "\""
  }

  const MissingContentHead: String := "ERROR: The write_file tool call is missing the required 'content' parameter.\n\nYou attempted to call write_file with only: "
  const MissingContentRule: String := "\nBut write_file REQUIRES both parameters:\n1. "
  const MissingContentProvided: String := " (you provided this \U{2713})\n2. content: <the actual file content as a string> (MISSING \U{2717})\n\nACTION REQUIRED: You must call write_file again with BOTH parameters. \nFirst, generate the file content in your response, then call write_file with:\n- "
  const MissingContentTail: String := "\n- content: \"<the complete file content as a string>\"\n\nDo not call write_file until you have the complete content ready to write."

  function MissingContentIntro(keys: String): String {
    MissingContentHead + keys + MissingContentRule
  }

  function MissingContentSteps(filePath: String): String {
    MissingContentProvided + PathField(filePath) + MissingContentTail
  }

  /** A pydantic validation error about a missing required field. */
  predicate IsMissingFieldError(error: String) {
    Contains(Lower(error), "validation error") && Contains(Lower(error), "required")
  }

  predicate MentionsContent(error: String) {
    Contains(Lower(error), "content")
  }

  const RequiresContentText: String := "' tool requires a 'content' parameter. Please provide the content to write to the file. You called the tool with: "
  const RetryText: String := ". Please try again with all required parameters."
  const MissingParametersText: String := "' tool is missing required parameters. Error: "
  const ProvideParametersText: String := ". Please provide all required parameters and try again."

  /** The answer when the tool raises `error`. */
  function ExceptionText(name: String, args: Args, error: String): String {
    if IsMissingFieldError(error) then
      if MentionsContent(error) then
        "Error: The '" + name + RequiresContentText + KeysRepr(ArgKeys(args)) + RetryText
      else
        "Error: The '" + name + MissingParametersText + error + ProvideParametersText
    else "Tool error in " + name + ": " + error
  }

  /** A `write_file` call whose content is missing or empty. */
  predicate NeedsContent(name: String, args: Args) {
    name == "write_file" && LacksContent(args)
  }

  /** The arguments the call ends up with: a copy of the call's own, auto-fixed when
      it is a `write_file` call without content. */
  function CallArgs(call: ToolCall, response: String, generate: ReadmeGenerator): Args {
    if NeedsContent(call.name, call.args) then AutoFix(call.args, response, generate) else call.args
  }

  /** The content of the tool message for a call of `name` with (auto-fixed) `args`. */
  function Respond(name: String, args: Args, tools: seq<Tool>): (r: String)
    ensures r == "" ==>
              && ToolIndex(tools, name) >= 0 && !NeedsContent(name, args)
              && tools[ToolIndex(tools, name)].invoke(args) == Returned("")
  {
    var index := ToolIndex(tools, name);
    if index < 0 then "Tool " + name + " not found"
    else if NeedsContent(name, args) then MissingContentError(args)
    else
      match tools[index].invoke(args)
      case Returned(output) => output
      case Raised(error) => ExceptionText(name, args, error)
  }

  /** The content of the tool message that answers `call`. */
  function Answer(call: ToolCall, tools: seq<Tool>, response: String, generate: ReadmeGenerator): String {
    Respond(call.name, CallArgs(call, response, generate), tools)
  }

  /** The tool messages `tool_use` returns for `calls`. */
  function ToolMessages(calls: seq<ToolCall>, tools: seq<Tool>, response: String, generate: ReadmeGenerator)
    : seq<Message>
  {
    seq(|calls|, i requires 0 <= i < |calls| => ToolMessage(Answer(calls[i], tools, response, generate), calls[i].id))
  }

  /** The tool messages `tool_use` returns for the state `messages`. */
  function ToolUseDelta(messages: seq<Message>, tools: seq<Tool>, generate: ReadmeGenerator): seq<Message>
    requires |messages| > 0 && messages[|messages| - 1].AIMessage?
  {
    ToolMessages(messages[|messages| - 1].toolCalls, tools, LastResponse(messages), generate)
  }

  /** One call, as the loop body runs it. */
  method AnswerCall(toolCall: ToolCall, tools: seq<Tool>, lastResponseContent: String, generate: ReadmeGenerator)
    returns (content: String)
    ensures content == Answer(toolCall, tools, lastResponseContent, generate)
  {
    var toolArgs := toolCall.args;
    if toolCall.name == "write_file" && LacksContent(toolArgs) {
      toolArgs := AutoFixArgs(toolArgs, lastResponseContent, generate);
    }
    content := Respond(toolCall.name, toolArgs, tools);
  }

  /** The `tool_use` node. */
  method ToolUse(messages: seq<Message>, tools: seq<Tool>, generate: ReadmeGenerator) returns (toolMessages: seq<Message>)
    requires |messages| > 0 && messages[|messages| - 1].AIMessage?
    ensures toolMessages == ToolUseDelta(messages, tools, generate)
  {
    var toolCalls := messages[|messages| - 1].toolCalls;
    toolMessages := [];
    var lastResponseContent := LastResponseContent(messages);
    for i := 0 to |toolCalls|
      invariant |toolMessages| == i
      invariant forall k :: 0 <= k < i ==>
                  toolMessages[k] == ToolMessage(Answer(toolCalls[k], tools, lastResponseContent, generate), toolCalls[k].id)
    {
      var toolCall := toolCalls[i];
      var content := AnswerCall(toolCall, tools, lastResponseContent, generate);
      toolMessages := toolMessages + [ToolMessage(content, toolCall.id)];
    }
  }

  // ---------------------------------------------------------------------------
  // What the node guarantees

  /** One tool message per call, in call order, each answering its call's id. */
  lemma ToolUseAnswersEveryCall(messages: seq<Message>, tools: seq<Tool>, generate: ReadmeGenerator)
    requires |messages| > 0 && messages[|messages| - 1].AIMessage?
    ensures var calls := messages[|messages| - 1].toolCalls;
            var delta := ToolUseDelta(messages, tools, generate);
            |delta| == |calls|
            && forall i :: 0 <= i < |calls| ==> delta[i].ToolMessage? && delta[i].toolCallId == calls[i].id
  {
  }

  /** A call to a tool that is not registered is answered with "Tool {name} not found". */
  lemma UnknownToolReported(name: String, args: Args, tools: seq<Tool>)
    requires forall i :: 0 <= i < |tools| ==> tools[i].name != name
    ensures Respond(name, args, tools) == "Tool " + name + " not found"
  {
  }

  /** A `write_file` call whose content the auto-fix could not recover does not reach
      the tool: swapping the registered tools for others with the same names does not
      change the answer, which is the missing-content error. */
  lemma MissingContentSkipsTool(name: String, args: Args, tools: seq<Tool>, others: seq<Tool>)
    requires |tools| == |others| && forall i :: 0 <= i < |tools| ==> tools[i].name == others[i].name
    requires NeedsContent(name, args) && ToolIndex(tools, name) >= 0
    ensures Respond(name, args, tools) == Respond(name, args, others) == MissingContentError(args)
  {
    SameNamesSameIndex(tools, others, name);
  }

  /** The tool lookup only looks at names. */
  lemma {:induction false} SameNamesSameIndex(tools: seq<Tool>, others: seq<Tool>, name: String)
    requires |tools| == |others| && forall i :: 0 <= i < |tools| ==> tools[i].name == others[i].name
    ensures ToolIndex(tools, name) == ToolIndex(others, name)
  {
    if |tools| > 0 {
      SameNamesSameIndex(tools[..|tools| - 1], others[..|others| - 1], name);
    }
  }

  /** The error text quotes the file path, or "unknown" when the call gives none. */
  lemma MissingContentErrorNamesPath(args: Args)
    ensures Contains(MissingContentError(args), PathField(GetArg(args, "file_path").GetOr("unknown")))
  {
    var filePath := GetArg(args, "file_path").GetOr("unknown");
    ContainsAt(MissingContentError(args), PathField(filePath), |MissingContentIntro(KeysRepr(ArgKeys(args)))|);
  }

  /** A call that is not a `write_file` call without content is passed its own
      arguments, untouched. */
  lemma OtherCallsKeepArgs(call: ToolCall, response: String, generate: ReadmeGenerator)
    requires !NeedsContent(call.name, call.args)
    ensures CallArgs(call, response, generate) == call.args
  {
  }

  /** A tool that returns normally is answered with what it returned; one that raises
      is answered with a text that names the tool, so the exception never escapes. */
  lemma InvocationAnswered(name: String, args: Args, tools: seq<Tool>)
    requires ToolIndex(tools, name) >= 0 && !NeedsContent(name, args)
    ensures var invocation := tools[ToolIndex(tools, name)].invoke(args);
            && (invocation.Returned? ==> Respond(name, args, tools) == invocation.output)
            && (invocation.Raised? ==> Contains(Respond(name, args, tools), name))
  {
    var invocation := tools[ToolIndex(tools, name)].invoke(args);
    if invocation.Raised? {
      ExceptionNamesTool(name, args, invocation.error);
    }
  }

  /** Every exception text names the tool that raised it. */
  lemma ExceptionNamesTool(name: String, args: Args, error: String)
    ensures Contains(ExceptionText(name, args, error), name)
  {
    if !IsMissingFieldError(error) {
      ContainsBetween("Tool error in ", name, ": ");
      ContainsAhead("Tool error in " + name + ": ", error, name);
    } else {
      var head := "Error: The '" + name;
      ContainsBetween("Error: The '", name, "");
      assert head + "" == head;
      if MentionsContent(error) {
        ContainsAhead(head, RequiresContentText, name);
        ContainsAhead(head + RequiresContentText, KeysRepr(ArgKeys(args)), name);
        ContainsAhead(head + RequiresContentText + KeysRepr(ArgKeys(args)), RetryText, name);
      } else {
        ContainsAhead(head, MissingParametersText, name);
        ContainsAhead(head + MissingParametersText, error, name);
        ContainsAhead(head + MissingParametersText + error, ProvideParametersText, name);
      }
    }
  }

}
