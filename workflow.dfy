/**
 * The LangGraph workflow of `CodeGeneratorAgent`: the entry node `model_response`
 * calls the model, the conditional edge `check_tool_use` goes on to `tool_use` when
 * the reply requests tools and to END otherwise, and `tool_use` always hands back to
 * `model_response`. Each node returns only its new messages, which the graph appends
 * to the thread's history.
 *
 * The graph is a step function over a `Machine` (the node about to run, the history,
 * and the agent's table of numbered options, which `model_response` refreshes), and
 * an invocation runs it until END or until its fuel is spent.
 */
module Workflow {
  import opened Text
  import opened Messages
  import opened Sanitize
  import opened Bullets
  import opened Recovery
  import opened Dispatch

  /** What the model returns: text and the tool calls it requests. */
  datatype Reply = Reply(content: String, toolCalls: seq<ToolCall>)

  /** The tool-bound chat model, `llm_with_tools.invoke`. */
  type Llm = seq<Message> -> Reply

  function ReplyMessage(reply: Reply): Message {
    AIMessage(reply.content, reply.toolCalls)
  }

  /** What the agent's nodes depend on besides the state: the model, the registered
      tools, the README generator of the auto-fix and the text of the system message
      (`Prompt.SystemPrompt` in the agent). */
  datatype Env = Env(llm: Llm, tools: seq<Tool>, generate: ReadmeGenerator, systemPrompt: String)

  datatype Node = ModelResponseNode | ToolUseNode | End

  /** `check_tool_use`: the conditional edge goes to `tool_use` or to END, and to
      `tool_use` exactly when the last message requests tools. */
  function CheckToolUse(messages: seq<Message>): (r: Node)
    requires |messages| > 0
    ensures r != ModelResponseNode
    ensures r == ToolUseNode <==> RequestsTools(messages[|messages| - 1])
  {
    if RequestsTools(messages[|messages| - 1]) then ToolUseNode else End
  }

  /** What `model_response` sends to the model for the state `state`: the cleaned
      history, behind the system message when the state holds exactly one message. */
  function ModelInput(state: seq<Message>, systemPrompt: String): (r: seq<Message>)
  {
    if |state| == 1 then [SystemMessage(systemPrompt)] + Cleaned(state) else Cleaned(state)
  }

  /** `self.last_options` after a reply: refreshed from the reply's bullets when the
      reply has text, kept otherwise. */
  function OptionsAfter(reply: Reply, options: map<String, String>): map<String, String> {
    if reply.content != "" then OptionTable(Lines(reply.content)) else options
  }

  datatype Machine = Machine(node: Node, messages: seq<Message>, lastOptions: map<String, String>)

  /** `tool_use` only runs after a reply that requested tools. */
  predicate Routed(m: Machine) {
    m.node == ToolUseNode ==> |m.messages| > 0 && RequestsTools(m.messages[|m.messages| - 1])
  }

  /** One node of the graph, and the edge after it. */
  function Step(m: Machine, env: Env): (r: Machine)
    requires Routed(m)
    ensures Routed(r)
  {
    match m.node
    case ModelResponseNode =>
      var reply := env.llm(ModelInput(m.messages, env.systemPrompt));
      var messages := m.messages + [ReplyMessage(reply)];
      Machine(CheckToolUse(messages), messages, OptionsAfter(reply, m.lastOptions))
    case ToolUseNode =>
      Machine(ModelResponseNode, m.messages + ToolUseDelta(m.messages, env.tools, env.generate), m.lastOptions)
    case End => m
  }

  /** The graph run until END, or until `fuel` steps are spent. */
  function Run(m: Machine, env: Env, fuel: nat): (r: Machine)
    requires Routed(m)
    ensures Routed(r)
    decreases fuel
  {
    if fuel == 0 || m.node == End then m else Run(Step(m, env), env, fuel - 1)
  }

  /** `ainvoke({"messages": [HumanMessage(input)]})` on a thread whose history is
      `history`. */
  function Invoke(history: seq<Message>, input: String, options: map<String, String>, env: Env, fuel: nat): Machine {
    Run(Machine(ModelResponseNode, history + [HumanMessage(input)], options), env, fuel)
  }

  // ---------------------------------------------------------------------------
  // The nodes and the edges

  /** `model_response` appends exactly the model's reply, and the conditional edge goes
      to `tool_use` exactly when the reply requests tools. */
  lemma ModelStepRoutes(m: Machine, env: Env)
    requires m.node == ModelResponseNode
    ensures var reply := env.llm(ModelInput(m.messages, env.systemPrompt));
            var r := Step(m, env);
            && r.messages == m.messages + [ReplyMessage(reply)]
            && (r.node == ToolUseNode <==> |reply.toolCalls| > 0)
            && (r.node == End <==> |reply.toolCalls| == 0)
            && (reply.content != "" ==> r.lastOptions == OptionTable(Lines(reply.content)))
            && (reply.content == "" ==> r.lastOptions == m.lastOptions)
  {
  }

  /** `tool_use` appends one tool message per requested call, answering that call's
      id, and always hands back to `model_response`. */
  lemma ToolStepAnswers(m: Machine, env: Env)
    requires m.node == ToolUseNode && Routed(m)
    ensures var calls := m.messages[|m.messages| - 1].toolCalls;
            var r := Step(m, env);
            && r.node == ModelResponseNode
            && |r.messages| == |m.messages| + |calls|
            && r.messages[..|m.messages|] == m.messages
            && (forall i :: 0 <= i < |calls| ==>
                  r.messages[|m.messages| + i].ToolMessage?
                  && r.messages[|m.messages| + i].toolCallId == calls[i].id)
            && r.lastOptions == m.lastOptions
  {
    ToolUseAnswersEveryCall(m.messages, env.tools, env.generate);
  }

  /** The reply that requested tools survives the sanitiser on the next model call:
      the tool messages `tool_use` appended answer all of its calls. */
  lemma DispatchedRequestKept(m: Machine, env: Env)
    requires m.node == ToolUseNode && Routed(m)
    ensures var k := |m.messages| - 1;
            Cleaned(Step(m, env).messages)[k] == m.messages[k]
  {
    ToolStepAnswers(m, env);
    var ms := Step(m, env).messages;
    var k := |m.messages| - 1;
    assert ms[k] == m.messages[k];
    RepliedRequestIsKept(ms, k);
  }

  /** Nodes only ever append to the history. */
  lemma {:induction false} RunAppendOnly(m: Machine, env: Env, fuel: nat)
    requires Routed(m)
    ensures |Run(m, env, fuel).messages| >= |m.messages|
    ensures Run(m, env, fuel).messages[..|m.messages|] == m.messages
    decreases fuel
  {
    if fuel > 0 && m.node != End {
      var s := Step(m, env);
      assert s.messages[..|m.messages|] == m.messages by {
        if m.node == ToolUseNode {
          ToolStepAnswers(m, env);
        }
      }
      RunAppendOnly(s, env, fuel - 1);
      assert Run(m, env, fuel).messages[..|s.messages|][..|m.messages|] == s.messages[..|m.messages|];
    }
  }

  /** At END the newest message is a reply that requests no tools. */
  predicate Settled(m: Machine) {
    m.node == End ==>
      |m.messages| > 0 && m.messages[|m.messages| - 1].AIMessage? && |m.messages[|m.messages| - 1].toolCalls| == 0
  }

  /** A run that reaches END stops on a reply that requests no tools. */
  lemma {:induction false} RunSettles(m: Machine, env: Env, fuel: nat)
    requires Routed(m) && Settled(m)
    ensures Settled(Run(m, env, fuel))
    decreases fuel
  {
    if fuel > 0 && m.node != End {
      var s := Step(m, env);
      if m.node == ModelResponseNode {
        ModelStepRoutes(m, env);
      } else {
        ToolStepAnswers(m, env);
      }
      RunSettles(s, env, fuel - 1);
    }
  }

  predicate NoSystemMessage(ms: seq<Message>) {
    forall i :: 0 <= i < |ms| ==> !ms[i].SystemMessage?
  }

  /** The system message is only ever sent, never stored: no run writes one into the
      history. */
  lemma {:induction false} RunStoresNoSystemMessage(m: Machine, env: Env, fuel: nat)
    requires Routed(m) && NoSystemMessage(m.messages)
    ensures NoSystemMessage(Run(m, env, fuel).messages)
    decreases fuel
  {
    if fuel > 0 && m.node != End {
      var s := Step(m, env);
      if m.node == ToolUseNode {
        ToolStepAnswers(m, env);
      }
      assert NoSystemMessage(s.messages);
      RunStoresNoSystemMessage(s, env, fuel - 1);
    }
  }

  /** For a history without system messages, the model is shown the system prompt
      exactly when the state holds a single message, and otherwise sees the cleaned
      history alone, message for message. */
  lemma SystemPromptOnFirstMessage(state: seq<Message>, systemPrompt: String)
    requires NoSystemMessage(state)
    ensures SystemMessage(systemPrompt) in ModelInput(state, systemPrompt) <==> |state| == 1
    ensures |state| == 1 ==> ModelInput(state, systemPrompt) == [SystemMessage(systemPrompt)] + Cleaned(state)
    ensures |state| != 1 ==> ModelInput(state, systemPrompt) == Cleaned(state)
  {
    CleanedShape(state);
    assert NoSystemMessage(Cleaned(state));
    if |state| == 1 {
      assert ModelInput(state, systemPrompt)[0] == SystemMessage(systemPrompt);
    }
  }

  /** Whatever the history, the model is sent every state message, cleaned, in order
      and at the end of its input, behind at most the one system message. */
  lemma ModelInputShape(state: seq<Message>, systemPrompt: String)
    ensures |ModelInput(state, systemPrompt)| == if |state| == 1 then 2 else |state|
    ensures ModelInput(state, systemPrompt)[|ModelInput(state, systemPrompt)| - |state|..] == Cleaned(state)
  {
    var r := ModelInput(state, systemPrompt);
    if |state| == 1 {
      assert r[1..] == Cleaned(state);
    } else {
      assert r[0..] == r;
    }
  }

  predicate NumberedOptions(options: map<String, String>) {
    forall key :: key in options ==> IsDigits(key)
  }

  /** The option table only ever holds keys a typed number can match. */
  lemma {:induction false} RunKeepsOptionsNumbered(m: Machine, env: Env, fuel: nat)
    requires Routed(m) && NumberedOptions(m.lastOptions)
    ensures NumberedOptions(Run(m, env, fuel).lastOptions)
    decreases fuel
  {
    if fuel > 0 && m.node != End {
      var s := Step(m, env);
      if m.node == ModelResponseNode {
        OptionKeysAreNumbers(Lines(env.llm(ModelInput(m.messages, env.systemPrompt)).content));
      }
      RunKeepsOptionsNumbered(s, env, fuel - 1);
    }
  }
}
