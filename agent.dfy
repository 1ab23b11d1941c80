/**
 * `CodeGeneratorAgent` itself: the object that keeps the table of numbered options
 * (`last_options`) and the thread's history, runs the workflow's nodes, and reads the
 * user's input line by line in `run`.
 */
module Agent {
  import opened Text
  import opened Messages
  import opened Sanitize
  import opened Bullets
  import opened Recovery
  import opened Dispatch
  import opened Workflow
  import opened Prompt

  /** The options `_display_quick_start` offers before the first reply. */
  const QuickStartOptions: map<String, String> := map[
    "1" := "Generate a Python REST API with FastAPI",
    "2" := "Create a React component for a todo list",
    "3" := "Build a Python class for database connections",
    "4" := "Generate a FastAPI web application with authentication",
    "5" := "Create a Python script for data processing"
  ]

  /** What one line of user input makes `run` do. */
  datatype Command = Skip | Exit | ShowHelp | ShowTools | Submit(text: String)

  /** The checks `run` makes on a line of input, in order: blank input is skipped,
      `exit`/`quit`/`q` and `help`/`tools` (in any letter case) are commands, and a
      line that is a number once stripped and is a key of the option table submits
      that option's text; anything else is submitted as typed. */
  function Interpret(userInput: String, options: map<String, String>): (r: Command)
    ensures r == Skip <==> Strip(userInput) == ""
    ensures r.Submit? ==> r.text == userInput || r.text in options.Values
  {
    if userInput == "" || Strip(userInput) == "" then Skip
    else if Lower(userInput) in ["exit", "quit", "q"] then Exit
    else if Lower(userInput) == "help" then ShowHelp
    else if Lower(userInput) == "tools" then ShowTools
    else if IsDigits(Strip(userInput)) && Strip(userInput) in options then Submit(options[Strip(userInput)])
    else Submit(userInput)
  }

  class CodeGeneratorAgent {
    /** The checkpointer's thread that `run` writes to. */
    const threadId: String
    const env: Env
    /** `self.last_options` */
    var lastOptions: map<String, String>
    /** The messages the checkpointer keeps for `threadId`. */
    var history: seq<Message>

    constructor (llm: Llm, tools: seq<Tool>, generate: ReadmeGenerator)
      ensures threadId == "code_generator_session"
      ensures env == Env(llm, tools, generate, SystemPrompt)
      ensures lastOptions == map[] && history == []
    {
      threadId := "code_generator_session";
      env := Env(llm, tools, generate, SystemPrompt);
      lastOptions := map[];
      history := [];
    }

    /** Every key of the option table is a number, so only a typed number selects. */
    predicate Valid()
      reads this
    {
      NumberedOptions(lastOptions)
    }

    /** `_display_quick_start`: the five starter options become the option table. */
    method DisplayQuickStart()
      modifies this
      ensures lastOptions == QuickStartOptions && history == old(history)
      ensures Valid()
    {
      lastOptions := QuickStartOptions;
    }

    /** `_format_with_numbers`: renumber the bullet lines of `text`, replace the option
        table by one entry per bullet, and append the tip when there is one. */
    method FormatWithNumbers(text: String) returns (result: String)
      modifies this
      ensures result == FormatText(text)
      ensures lastOptions == OptionTable(Lines(text)) && history == old(history)
      ensures Valid()
    {
      lastOptions := map[];
      var lines := Lines(text);
      var formattedLines := NumberBullets(lines);
      result := Join("\n", formattedLines);
      OptionTableKeys(lines);
      if |lastOptions| > 0 {
        result := result + TipLine(|lastOptions|);
      }
      OptionKeysAreNumbers(lines);
    }

    /** The loop of `_format_with_numbers` over the lines, on an empty option table. */
    method NumberBullets(lines: seq<String>) returns (formattedLines: seq<String>)
      requires lastOptions == map[]
      modifies this
      ensures formattedLines == NumberLines(lines)
      ensures lastOptions == OptionTable(lines) && history == old(history)
    {
      ghost var matches := Matches(lines);
      var optionNum := 1;
      formattedLines := [];
      for i := 0 to |lines|
        invariant optionNum == BulletsBefore(matches, i) + 1
        invariant lastOptions == OptionsAmong(matches, i)
        invariant formattedLines == NumberedUpTo(lines, matches, i)
        invariant history == old(history)
      {
        var bulletMatch := MatchBullet(lines[i]);
        assert bulletMatch == matches[i];
        var formatted;
        if bulletMatch.Some? {
          var indent := bulletMatch.value.indent;
          var content := bulletMatch.value.content;
          lastOptions := lastOptions[NatToString(optionNum) := content];
          formatted := indent + Marker(optionNum) + content;
          optionNum := optionNum + 1;
        } else {
          formatted := lines[i];
        }
        formattedLines := formattedLines + [formatted];
      }
    }

    /** The `model_response` node: clean the state, put the system message in front on
        a thread's first call, call the model, and refresh the option table from the
        reply's text. The state update is the reply alone. */
    method ModelResponse(state: seq<Message>) returns (delta: seq<Message>)
      modifies this
      ensures var reply := env.llm(ModelInput(state, env.systemPrompt));
              && delta == [ReplyMessage(reply)]
              && lastOptions == OptionsAfter(reply, old(lastOptions))
      ensures history == old(history)
      ensures old(Valid()) ==> Valid()
    {
      var messages := CleanMessagesForAnthropic(state);
      if |state| == 1 {
        messages := [SystemMessage(env.systemPrompt)] + messages;
      }
      var response := env.llm(messages);
      if response.content != "" {
        var formattedContent := FormatWithNumbers(response.content);
      }
      delta := [ReplyMessage(response)];
    }

    /** `self.agent.ainvoke({"messages": [HumanMessage(userInput)]})`: the graph runs from
        `model_response` on the thread's history with the new message appended, each
        node's messages are appended, and it stops at END (or when `fuel` node runs are
        spent). */
    method Invoke(userInput: String, fuel: nat)
      modifies this
      ensures var r := Workflow.Invoke(old(history), userInput, old(lastOptions), env, fuel);
              history == r.messages && lastOptions == r.lastOptions
      ensures old(Valid()) ==> Valid()
    {
      ghost var start := Machine(ModelResponseNode, history + [HumanMessage(userInput)], lastOptions);
      var messages := history + [HumanMessage(userInput)];
      var node := ModelResponseNode;
      var steps := fuel;
      while steps > 0 && node != End
        invariant Routed(Machine(node, messages, lastOptions))
        invariant Run(Machine(node, messages, lastOptions), env, steps) == Run(start, env, fuel)
      {
        ghost var before := Machine(node, messages, lastOptions);
        if node == ModelResponseNode {
          var delta := ModelResponse(messages);
          messages := messages + delta;
          node := CheckToolUse(messages);
        } else {
          var delta := ToolUse(messages, env.tools, env.generate);
          messages := messages + delta;
          node := ModelResponseNode;
        }
        assert Machine(node, messages, lastOptions) == Step(before, env);
        steps := steps - 1;
      }
      history := messages;
      if old(Valid()) {
        RunKeepsOptionsNumbered(start, env, fuel);
      }
    }

    /** One pass of the loop in `run`, for the line `userInput`: decide what it means
        and, when it is a request, run the workflow on it. */
    method HandleInput(userInput: String, fuel: nat) returns (command: Command)
      modifies this
      ensures command == Interpret(userInput, old(lastOptions))
      ensures command.Submit? ==>
                var r := Workflow.Invoke(old(history), command.text, old(lastOptions), env, fuel);
                history == r.messages && lastOptions == r.lastOptions
      ensures !command.Submit? ==> history == old(history) && lastOptions == old(lastOptions)
      ensures old(Valid()) ==> Valid()
    {
      if userInput == "" || Strip(userInput) == "" {
        return Skip;
      }
      var lowered := Lower(userInput);
      if lowered in ["exit", "quit", "q"] {
        return Exit;
      }
      if lowered == "help" {
        return ShowHelp;
      }
      if lowered == "tools" {
        return ShowTools;
      }
      var request := userInput;
      var stripped := Strip(userInput);
      if IsDigits(stripped) && stripped in lastOptions {
        request := lastOptions[stripped];
      }
      command := Submit(request);
      Invoke(request, fuel);
    }
  }

  // ---------------------------------------------------------------------------
  // Selecting an option

  /** A number is neither blank nor a command word, and strips to itself. */
  lemma NumberIsNoCommand(s: String)
    requires IsDigits(s)
    ensures Strip(s) == s && s != ""
    ensures Lower(s) !in ["exit", "quit", "q"] && Lower(s) != "help" && Lower(s) != "tools"
  {
    assert LeadingSpaces(s) == 0;
    assert TrailingSpaces(s) == 0;
    assert IsDigit(Lower(s)[0]);
  }

  /** A number that is a key of the table selects that option. */
  lemma TypedNumberSelects(key: String, options: map<String, String>)
    requires IsDigits(key) && key in options
    ensures Interpret(key, options) == Submit(options[key])
  {
    NumberIsNoCommand(key);
  }

  /** After a reply has been formatted, typing the number shown in front of its `k`-th
      bullet line submits that bullet's text. */
  lemma TypedNumberSelectsBullet(text: String, i: nat)
    requires i < |Lines(text)| && MatchBullet(Lines(text)[i]).Some?
    ensures var key := NatToString(BulletsBefore(Matches(Lines(text)), i) + 1);
            Interpret(key, OptionTable(Lines(text))) == Submit(MatchBullet(Lines(text)[i]).value.content)
  {
    var lines := Lines(text);
    OptionTableAt(lines, i);
    TypedNumberSelects(NatToString(BulletsBefore(Matches(lines), i) + 1), OptionTable(lines));
  }

  /** The renumbered bullet line, with its `**k.** ` marker, is part of the formatted
      text. */
  lemma RenumberedLineShown(text: String, i: nat)
    requires i < |Lines(text)| && MatchBullet(Lines(text)[i]).Some?
    ensures Contains(FormatText(text), Marker(BulletsBefore(Matches(Lines(text)), i) + 1))
  {
    var lines := Lines(text);
    var n := BulletCount(lines);
    MarkerShown(lines, i);
    ContainsAhead(Join("\n", NumberLines(lines)), if n > 0 then TipLine(n) else "", Marker(BulletsBefore(Matches(lines), i) + 1));
  }

  /** A number the table does not hold is sent to the model as typed. */
  lemma UnknownNumberSentAsTyped(s: String, options: map<String, String>)
    requires IsDigits(s) && s !in options
    ensures Interpret(s, options) == Submit(s)
  {
    NumberIsNoCommand(s);
  }

  /** On the starter options, typing `1` to `5` submits the starter request. */
  lemma QuickStartSelection(k: nat)
    requires 1 <= k <= 5
    ensures NatToString(k) in QuickStartOptions
    ensures Interpret(NatToString(k), QuickStartOptions) == Submit(QuickStartOptions[NatToString(k)])
  {
    NumberIsNoCommand(NatToString(k));
    assert NatToString(k) == [DigitChar(k)];
    assert DigitChar(k) in {'1', '2', '3', '4', '5'};
  }
}
