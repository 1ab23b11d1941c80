/**
 * The web front end: one `CodeGeneratorAgent` per browser session, kept by the
 * `AgentManager`, and the `/api/generate` handler that runs the agent's workflow and
 * turns the resulting thread into a response (the reply text, a summary of the tool
 * calls, and the files the tools wrote).
 */
module WebApp {
  import opened Common
  import opened Text
  import opened Messages
  import opened Recovery
  import opened Dispatch
  import opened Workflow
  import opened Prompt
  import opened Agent

  // ---------------------------------------------------------------------------
  // format_agent_response

  /** One element of the `tool_results` list: a dict, read through `.get("tool_name")`
      and `.get("result")`, or anything else. */
  datatype ResultItem = ResultDict(toolName: Option<String>, result: Option<String>) | NotADict

  /** `{"name": ..., "result": ...}` */
  datatype ToolCallSummary = ToolCallSummary(name: String, result: String)

  /** The dict `format_agent_response` returns. */
  datatype WebResponse = WebResponse(response: String, toolCalls: seq<ToolCallSummary>, filesCreated: seq<String>)

  /** `tool_results or []` */
  function Given(toolResults: Option<seq<ResultItem>>): seq<ResultItem> {
    toolResults.GetOr([])
  }

  /** The dict elements of the list, in order. */
  function Dicts(items: seq<ResultItem>): (r: seq<ResultItem>)
    ensures |r| <= |items|
    ensures forall x :: x in r <==> x in items && x.ResultDict?
  {
    if |items| == 0 then []
    else Dicts(items[..|items| - 1]) + (if items[|items| - 1].ResultDict? then [items[|items| - 1]] else [])
  }

  function Summary(item: ResultItem): ToolCallSummary
    requires item.ResultDict?
  {
    ToolCallSummary(item.toolName.GetOr(""), item.result.GetOr(""))
  }

  /** A result reports a written file: the tool's name mentions `write_file` in any
      letter case, or the result says "Successfully wrote". */
  predicate ReportsWrite(toolName: String, toolResult: String) {
    Contains(Lower(toolName), "write_file") || Contains(toolResult, "Successfully wrote")
  }

  /** `str(tool_result).split("to ")[-1].strip()` */
  function FileOf(toolResult: String): String {
    Strip(LastPiece(toolResult, "to "))
  }

  /** The `files_created` entry a dict element contributes, if any. */
  function FileEntry(item: ResultItem): seq<String>
    requires item.ResultDict?
  {
    var toolResult := item.result.GetOr("");
    if ReportsWrite(item.toolName.GetOr(""), toolResult) && Contains(toolResult, "to ") then [FileOf(toolResult)]
    else []
  }

  /** `tool_calls` for a prefix of the list. */
  function Summaries(items: seq<ResultItem>): seq<ToolCallSummary> {
    if |items| == 0 then []
    else
      var last := items[|items| - 1];
      Summaries(items[..|items| - 1]) + (if last.ResultDict? then [Summary(last)] else [])
  }

  /** `files_created` for a prefix of the list. */
  function Files(items: seq<ResultItem>): seq<String> {
    if |items| == 0 then []
    else
      var last := items[|items| - 1];
      Files(items[..|items| - 1]) + (if last.ResultDict? then FileEntry(last) else [])
  }

  /** `format_agent_response`: the text is passed through; each dict element of
      `tool_results` gives one `tool_calls` entry, and possibly one `files_created`
      entry; other elements are skipped. */
  method FormatAgentResponse(responseText: String, toolResults: Option<seq<ResultItem>>) returns (r: WebResponse)
    ensures r.response == responseText
    ensures r.toolCalls == Summaries(Given(toolResults))
    ensures r.filesCreated == Files(Given(toolResults))
    ensures |Given(toolResults)| == 0 ==> r.toolCalls == [] && r.filesCreated == []
  {
    var filesCreated: seq<String> := [];
    var toolCalls: seq<ToolCallSummary> := [];
    if toolResults.Some? && |toolResults.value| > 0 {
      var items := toolResults.value;
      for i := 0 to |items|
        invariant toolCalls == Summaries(items[..i])
        invariant filesCreated == Files(items[..i])
      {
        assert items[..i + 1][..i] == items[..i];
        var result := items[i];
        if result.ResultDict? {
          var toolName := result.toolName.GetOr("");
          var toolResult := result.result.GetOr("");
          if Contains(Lower(toolName), "write_file") || Contains(toolResult, "Successfully wrote") {
            if Contains(toolResult, "to ") {
              var filePath := Strip(LastPiece(toolResult, "to "));
              filesCreated := filesCreated + [filePath];
            }
          }
          toolCalls := toolCalls + [ToolCallSummary(toolName, toolResult)];
        }
      }
      assert items[..|items|] == items;
    }
    r := WebResponse(responseText, toolCalls, filesCreated);
  }

  /** One `tool_calls` entry per dict element, in order: the `k`-th entry summarises the
      `k`-th dict. */
  lemma {:induction false} SummariesPerDict(items: seq<ResultItem>)
    ensures |Summaries(items)| == |Dicts(items)|
    ensures forall k :: 0 <= k < |Dicts(items)| ==> Dicts(items)[k].ResultDict? && Summaries(items)[k] == Summary(Dicts(items)[k])
  {
    if |items| > 0 {
      SummariesPerDict(items[..|items| - 1]);
      var last := items[|items| - 1];
      if last.ResultDict? {
        assert Dicts(items)[|Dicts(items)| - 1] == last;
      }
    }
  }

  /** Every `files_created` entry comes from a dict element that reports a write and
      whose result contains "to "; there are never more files than tool calls. */
  lemma {:induction false} FilesFromWrites(items: seq<ResultItem>)
    ensures |Files(items)| <= |Summaries(items)|
    ensures forall f :: f in Files(items) ==>
              exists d :: d in items && d.ResultDict? && ReportsWrite(d.toolName.GetOr(""), d.result.GetOr(""))
                          && Contains(d.result.GetOr(""), "to ") && f == FileOf(d.result.GetOr(""))
  {
    if |items| > 0 {
      var init := items[..|items| - 1];
      FilesFromWrites(init);
      forall f | f in Files(items)
        ensures exists d :: d in items && d.ResultDict? && ReportsWrite(d.toolName.GetOr(""), d.result.GetOr(""))
                            && Contains(d.result.GetOr(""), "to ") && f == FileOf(d.result.GetOr(""))
      {
        if f in Files(init) {
          var d :| d in init && d.ResultDict? && ReportsWrite(d.toolName.GetOr(""), d.result.GetOr(""))
                   && Contains(d.result.GetOr(""), "to ") && f == FileOf(d.result.GetOr(""));
          assert d in items;
        } else {
          assert items[|items| - 1] in items;
        }
      }
    }
  }

  /** The file path is the stripped text after the last "to " of the result: it follows
      an occurrence of "to ", and no "to " occurs after that one, nor in the path. */
  lemma FilePathAfterLastTo(toolResult: String)
    requires Contains(toolResult, "to ")
    ensures exists k :: TailAfter(toolResult, "to ", k, LastPiece(toolResult, "to "))
    ensures !Contains(LastPiece(toolResult, "to "), "to ")
    ensures FileOf(toolResult) == Strip(LastPiece(toolResult, "to "))
    ensures !Contains(FileOf(toolResult), "to ")
  {
    SplitLastIsTail(toolResult, "to ");
    SplitPiecesFree(toolResult, "to ");
    var parts := SplitOn(toolResult, "to ");
    assert parts[|parts| - 1] in parts;
    StripAvoids(LastPiece(toolResult, "to "), "to ");
  }

  // ---------------------------------------------------------------------------
  // generate_code's response assembly

  /** `str(msg.content) + "\n\n"` when the content is non-empty. */
  function MessageText(m: Message): String {
    if m.content != "" then m.content + "\n\n" else ""
  }

  /** `response_text` after a prefix of the messages. */
  function ResponseText(messages: seq<Message>): String {
    if |messages| == 0 then ""
    else ResponseText(messages[..|messages| - 1]) + MessageText(messages[|messages| - 1])
  }

  /** The `tool_results` entries one message contributes: `{"tool_name": ..., "args": ...}`
      per requested call, with no `"result"` key. */
  function CallResults(m: Message): (r: seq<ResultItem>)
    ensures RequestsTools(m) ==> |r| == |m.toolCalls|
  {
    if RequestsTools(m) then seq(|m.toolCalls|, i requires 0 <= i < |m.toolCalls| => ResultDict(Some(m.toolCalls[i].name), None))
    else []
  }

  /** `tool_results` after a prefix of the messages. */
  function ToolResults(messages: seq<Message>): seq<ResultItem> {
    if |messages| == 0 then []
    else ToolResults(messages[..|messages| - 1]) + CallResults(messages[|messages| - 1])
  }

  /** Every tool call the messages request, in order. */
  function RequestedCalls(messages: seq<Message>): seq<ToolCall> {
    if |messages| == 0 then []
    else
      var m := messages[|messages| - 1];
      RequestedCalls(messages[..|messages| - 1]) + (if m.AIMessage? then m.toolCalls else [])
  }

  /** The loop of `generate_code` over `result["messages"]`. */
  method AssembleResponse(messages: seq<Message>) returns (responseText: String, toolResults: seq<ResultItem>)
    ensures responseText == ResponseText(messages)
    ensures toolResults == ToolResults(messages)
  {
    responseText := "";
    toolResults := [];
    for i := 0 to |messages|
      invariant responseText == ResponseText(messages[..i])
      invariant toolResults == ToolResults(messages[..i])
    {
      var msg := messages[i];
      assert messages[..i + 1][..i] == messages[..i];
      assert ResponseText(messages[..i + 1]) == ResponseText(messages[..i]) + MessageText(msg);
      assert ToolResults(messages[..i + 1]) == ToolResults(messages[..i]) + CallResults(msg);
      if msg.content != "" {
        assert responseText + msg.content + "\n\n" == responseText + (msg.content + "\n\n");
        responseText := responseText + msg.content + "\n\n";
      }
      if RequestsTools(msg) {
        ghost var before := toolResults;
        for j := 0 to |msg.toolCalls|
          invariant toolResults == before + CallResults(msg)[..j]
        {
          assert CallResults(msg)[..j + 1] == CallResults(msg)[..j] + [ResultDict(Some(msg.toolCalls[j].name), None)];
          toolResults := toolResults + [ResultDict(Some(msg.toolCalls[j].name), None)];
        }
        assert CallResults(msg)[..|msg.toolCalls|] == CallResults(msg);
      }
    }
    assert messages[..|messages|] == messages;
  }

  /** `tool_results` holds one entry per requested call, in order, named after the call
      and without a result. */
  lemma {:induction false} ToolResultsPerCall(messages: seq<Message>)
    ensures |ToolResults(messages)| == |RequestedCalls(messages)|
    ensures forall k :: 0 <= k < |ToolResults(messages)| ==>
              ToolResults(messages)[k] == ResultDict(Some(RequestedCalls(messages)[k].name), None)
  {
    if |messages| > 0 {
      var init := messages[..|messages| - 1];
      var m := messages[|messages| - 1];
      ToolResultsPerCall(init);
      var calls := if m.AIMessage? then m.toolCalls else [];
      assert RequestedCalls(messages) == RequestedCalls(init) + calls;
      forall k | |ToolResults(init)| <= k < |ToolResults(messages)|
        ensures ToolResults(messages)[k] == ResultDict(Some(RequestedCalls(messages)[k].name), None)
      {
        assert ToolResults(messages)[k] == CallResults(m)[k - |ToolResults(init)|];
      }
    }
  }

  /** Entries without a result give no file, and each gives a tool call whose result is
      empty. */
  lemma {:induction false} ResultlessGiveNoFiles(items: seq<ResultItem>)
    requires forall k :: 0 <= k < |items| ==> items[k].ResultDict? && items[k].result.None?
    ensures Files(items) == []
    ensures |Summaries(items)| == |items|
    ensures forall k :: 0 <= k < |items| ==> Summaries(items)[k] == ToolCallSummary(items[k].toolName.GetOr(""), "")
  {
    if |items| > 0 {
      ResultlessGiveNoFiles(items[..|items| - 1]);
      assert !Contains("", "to ");
    }
  }

  /** Every non-empty message content appears in the response text, followed by a blank
      line. */
  lemma {:induction false} ContentShown(messages: seq<Message>, i: nat)
    requires i < |messages| && messages[i].content != ""
    ensures Contains(ResponseText(messages), messages[i].content + "\n\n")
  {
    var init := messages[..|messages| - 1];
    var text := ResponseText(messages);
    if i == |messages| - 1 {
      ContainsAt(text, MessageText(messages[i]), |ResponseText(init)|);
    } else {
      assert init[i] == messages[i];
      ContentShown(init, i);
      ContainsAt(text, ResponseText(init), 0);
      ContainsAcross(text, ResponseText(init), messages[i].content + "\n\n");
    }
  }

  /** What `generate_code` answers for a thread: since its `tool_results` carry no result,
      `files_created` is always empty and every tool call's result is empty. */
  lemma GeneratedFilesNone(messages: seq<Message>)
    ensures Files(ToolResults(messages)) == []
    ensures |Summaries(ToolResults(messages))| == |RequestedCalls(messages)|
    ensures forall k :: 0 <= k < |RequestedCalls(messages)| ==>
              Summaries(ToolResults(messages))[k] == ToolCallSummary(RequestedCalls(messages)[k].name, "")
  {
    ToolResultsPerCall(messages);
    ResultlessGiveNoFiles(ToolResults(messages));
  }

  /** The reply of `generate_code` once the workflow has run: every text of the thread,
      one summary with an empty result per requested tool call, and no files. */
  method WebReply(messages: seq<Message>) returns (r: WebResponse)
    ensures r.response == ResponseText(messages) && r.filesCreated == []
    ensures |r.toolCalls| == |RequestedCalls(messages)|
    ensures forall k :: 0 <= k < |RequestedCalls(messages)| ==>
              r.toolCalls[k] == ToolCallSummary(RequestedCalls(messages)[k].name, "")
    ensures r == WebResponse(ResponseText(messages), Summaries(ToolResults(messages)), [])
  {
    var responseText, toolResults := AssembleResponse(messages);
    r := FormatAgentResponse(responseText, Some(toolResults));
    GeneratedFilesNone(messages);
  }

  // ---------------------------------------------------------------------------
  // Sessions

  /** An entry of `agent_configs`: `{"configurable": {"thread_id": ...}}`. */
  datatype AgentConfig = AgentConfig(threadId: String)

  /** `f"web_session_{session_id}"` */
  function WebThread(sessionId: String): String {
    "web_session_" + sessionId
  }

  /** `request.session_id or str(uuid.uuid4())`: an absent or empty id is replaced by the
      fresh one. */
  function SessionFor(requested: Option<String>, generated: String): String {
    if requested.Some? && requested.value != "" then requested.value else generated
  }

  /** The result of `/api/generate`: a response, or 422 when the prompt is empty. */
  datatype GenerateResult = Generated(sessionId: String, response: WebResponse) | RequestRejected

  /** `AgentManager`: the agents by session id, and each session's checkpointer
      configuration. The model, tools and README generator every new agent is built
      with are fixed here. */
  class AgentManager {
    const llm: Llm
    const tools: seq<Tool>
    const generate: ReadmeGenerator
    var agents: map<String, CodeGeneratorAgent>
    var agentConfigs: map<String, AgentConfig>

    /** Both maps hold the same sessions, each session's thread is its web thread, and
        no two sessions share an agent (each one was created for its session). */
    predicate Valid()
      reads this
    {
      && agents.Keys == agentConfigs.Keys
      && (forall s :: s in agentConfigs ==> agentConfigs[s] == AgentConfig(WebThread(s)))
      && (forall s, t :: s in agents && t in agents && s != t ==> agents[s] != agents[t])
    }

    constructor (llm: Llm, tools: seq<Tool>, generate: ReadmeGenerator)
      ensures Valid()
      ensures this.llm == llm && this.tools == tools && this.generate == generate
      ensures agents == map[] && agentConfigs == map[]
    {
      this.llm := llm;
      this.tools := tools;
      this.generate := generate;
      agents := map[];
      agentConfigs := map[];
    }

    /** `get_or_create_agent`: a known session keeps its agent; an unknown one gets a new
        agent, initialised (which puts up the quick-start options), and its web thread. */
    method GetOrCreateAgent(sessionId: String) returns (agent: CodeGeneratorAgent)
      modifies this
      ensures sessionId in agents && agent == agents[sessionId]
      ensures sessionId in old(agents) ==>
                agent == old(agents)[sessionId] && agents == old(agents) && agentConfigs == old(agentConfigs)
      ensures sessionId !in old(agents) ==>
                && fresh(agent)
                && agents == old(agents)[sessionId := agent]
                && agentConfigs == old(agentConfigs)[sessionId := AgentConfig(WebThread(sessionId))]
                && agent.env == Env(llm, tools, generate, SystemPrompt)
                && agent.history == [] && agent.lastOptions == QuickStartOptions
      ensures old(Valid()) ==> Valid()
    {
      if sessionId !in agents {
        agent := new CodeGeneratorAgent(llm, tools, generate);
        agent.DisplayQuickStart();
        agents := agents[sessionId := agent];
        agentConfigs := agentConfigs[sessionId := AgentConfig(WebThread(sessionId))];
      }
      agent := agents[sessionId];
    }

    /** `cleanup_agent`: forget a known session in both maps; an unknown one is left
        alone. */
    method CleanupAgent(sessionId: String)
      modifies this
      ensures agents == old(agents) - {sessionId}
      ensures agentConfigs == if sessionId in old(agents) then old(agentConfigs) - {sessionId} else old(agentConfigs)
      ensures old(Valid()) ==> Valid()
    {
      if sessionId in agents {
        agents := agents - {sessionId};
        if sessionId in agentConfigs {
          agentConfigs := agentConfigs - {sessionId};
        }
      }
    }

    /** The part of `generate_code` that runs the agent: get or create the session's
        agent and run its workflow on the prompt in the session's thread. The agents of
        the other sessions keep every field, their threads and option tables included. */
    method RunSession(sessionId: String, prompt: String, fuel: nat) returns (agent: CodeGeneratorAgent)
      requires Valid()
      modifies this, agents.Values
      ensures Valid()
      ensures sessionId in agents && agent == agents[sessionId]
      ensures agentConfigs == old(agentConfigs)[sessionId := AgentConfig(WebThread(sessionId))]
      ensures sessionId in old(agents) ==>
                && agents == old(agents)
                && agent.history
                   == Workflow.Invoke(old(agents[sessionId].history), prompt, old(agents[sessionId].lastOptions), agent.env, fuel).messages
      ensures sessionId !in old(agents) ==>
                && agents == old(agents)[sessionId := agent]
                && agent.history
                   == Workflow.Invoke([], prompt, QuickStartOptions, Env(llm, tools, generate, SystemPrompt), fuel).messages
      ensures forall a :: a in old(agents.Values) && a != agent ==> unchanged(a)
    {
      agent := GetOrCreateAgent(sessionId);
      var config := agentConfigs[sessionId];
      agent.Invoke(prompt, fuel);
    }

    /** `generate_code`: reject an empty prompt; otherwise pick the session, run its agent's
        workflow on the prompt, and answer with the texts of the whole thread and one
        summary per requested tool call. The agents of the other sessions keep every
        field, their threads and option tables included. */
    method GenerateCode(prompt: String, requested: Option<String>, generated: String, fuel: nat)
      returns (r: GenerateResult)
      requires Valid()
      modifies this, agents.Values
      ensures Valid()
      ensures prompt == "" ==> r == RequestRejected && agents == old(agents) && agentConfigs == old(agentConfigs)
      ensures prompt != "" ==>
                var sid := SessionFor(requested, generated);
                && r.Generated? && r.sessionId == sid && sid in agents
                && agentConfigs == old(agentConfigs)[sid := AgentConfig(WebThread(sid))]
                && r.response == WebResponse(ResponseText(agents[sid].history), Summaries(ToolResults(agents[sid].history)), [])
                && (sid in old(agents) ==>
                      agents == old(agents)
                      && agents[sid].history
                         == Workflow.Invoke(old(agents[sid].history), prompt, old(agents[sid].lastOptions), agents[sid].env, fuel).messages)
                && (sid !in old(agents) ==>
                      agents == old(agents)[sid := agents[sid]]
                      && agents[sid].history
                         == Workflow.Invoke([], prompt, QuickStartOptions, Env(llm, tools, generate, SystemPrompt), fuel).messages)
      ensures forall a :: a in old(agents.Values) && (prompt == "" || a != agents[SessionFor(requested, generated)]) ==>
                unchanged(a)
    {
      if prompt == "" {
        return RequestRejected;
      }
      var sessionId := SessionFor(requested, generated);
      var agent := RunSession(sessionId, prompt, fuel);
      var formatted := WebReply(agent.history);
      r := Generated(sessionId, formatted);
    }
  }
}
