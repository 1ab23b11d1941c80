# AI code generator: a verified model of its core

The repository is an interactive code generator. A LangGraph workflow alternates between
two nodes. `model_response` sends the conversation to Claude. `tool_use` executes the
tool calls the reply requests, such as `write_file`. The agent class around the
workflow does four things:

- It repairs the history before each model call, so that the API sees no unanswered
  tool requests.
- It renumbers the bullet points of each reply, so that the user can pick an option
  by typing its number.
- It recovers the `content` argument of a `write_file` call that lacks it, from the
  code blocks or the prose of the last response.
- It turns tool failures into messages the model can act on.

A web front end (`app.py`) keeps one agent per browser session and turns a finished
thread into a JSON answer. A sample REST service (`fastapi_rest_api.py`) keeps
products in an in-memory table.

The model is written in Dafny, one module per part:

| file | module | models |
|---|---|---|
| `common.dfy` | `Common` | `Option`, Python's value-or-`None` |
| `text.dfy` | `Text` | the `str` operations the source uses: `in`, `find`, `split`, `join`, `strip`, `lower`/`upper`, `isdigit`, `str(int)`, `os.path.basename`/`dirname` |
| `messages.dfy` | `Messages` | the four message kinds, tool calls, and the argument dictionary |
| `sanitize.dfy` | `Sanitize` | `_clean_messages_for_anthropic` |
| `bullets.dfy` | `Bullets` | the bullet regex, the renumbering and the option table of `_format_with_numbers` |
| `recovery.dfy` | `Recovery` | the `write_file` auto-fix of `tool_use` |
| `dispatch.dfy` | `Dispatch` | the rest of `tool_use`: tool look-up, the missing-content error, exception texts |
| `workflow.dfy` | `Workflow` | the graph: nodes, the conditional edge, and runs of the graph |
| `prompt.dfy` | `Prompt` | the system prompt text |
| `agent.dfy` | `Agent` | the `CodeGeneratorAgent` class and the input handling of `run` |
| `products.dfy` | `Products` | the product REST service |
| `webapp.dfy` | `WebApp` | `AgentManager`, `format_agent_response` and `generate_code` |

Code that updates state in place is modelled as classes whose methods are proved
against functions of the old state:

- `CodeGeneratorAgent` with `last_options` and the thread's history;
- `ProductStore` with `products_db` and `next_id`;
- `AgentManager` with its two dictionaries.

Loops in the source are loops in the model, each proved equal to a reference function.
The properties are stated about those functions. The model and the tools are
parameters:

- the model is a function from the message list to a reply;
- each tool is a function from its arguments to an output or an error.

A few places where the code and its comments or documentation part ways are settled in
favour of the code:

- The fence-line collector of the auto-fix (agent.py:472-491) never stops at a closing
  fence, because a fence line always skips to the next line before the stop check. The
  collector therefore gathers every fence-free line after the first fence, and the file
  name test has no effect. `Recovery.CollectAfterFence` models that behaviour.
- `tool_use` looks for "the last AI response" (agent.py:413-418). However, every AI
  message has a `tool_calls` attribute, so only non-AI messages qualify.
  `Dispatch.LastResponseIgnoresReplies` states this.
- The system prompt is sent only when the thread holds exactly one message, and it is
  never stored in the thread (agent.py:342-386, 403).
- The `tool_results` that `generate_code` builds carry no `"result"` key (app.py:265-270).
  As a result, its `files_created` list is always empty (`WebApp.GeneratedFilesNone`).

## Model

| member | source | states |
|---|---|---|
| Sanitize.CleanMessagesForAnthropic | agent.py:191-248 | the look-ahead loop produces exactly `Cleaned(messages)`: the message at each position cleaned on its own |
| Sanitize.Cleaned | agent.py:197-248 | the cleaned history has one message per message (what each becomes is stated by `CleanedShape`) |
| Sanitize.ScanToolRun | agent.py:211-223 | the inner loop stops after the run of tool messages that follows position `i` and collects exactly the requested ids that this run answers |
| Sanitize.ToolRunLength | agent.py:215-223 | the run of tool messages is a maximal prefix: everything before it is a tool message, and the message after it is not |
| Sanitize.CleanedShape | agent.py:202-246 | cleaning keeps the length; messages that request no tools are kept; a tool request is kept iff all of its ids are answered by the run that follows, otherwise it becomes an AI message with the same content and no tool calls |
| Sanitize.ToolMessagesUntouched | agent.py:226-246 | tool messages stay at their positions, unchanged, and no other message becomes one |
| Sanitize.CleanedAnswersEveryRequest | agent.py:193-196 | after cleaning, every remaining tool request is answered by the tool messages right after it (the API requirement the docstring names) |
| Sanitize.CleanedIdempotent | agent.py:191-248 | cleaning a cleaned history changes nothing |
| Sanitize.RepliedRequestIsKept | agent.py:226-233 | a request followed by one tool message per call, with matching ids, survives cleaning unchanged |
| Bullets.MatchBulletSound | agent.py:169 | a match of `^(\s*)[•\-\*]\s+(.+)$` splits the line into the leading whitespace, a bullet character, at least one whitespace character and a non-empty content that starts at the first non-space character (or is the run's last character) |
| Bullets.MatchBulletSplits | agent.py:169 | the match found is one of the ways the pattern can match the line |
| Bullets.MatchBullet | agent.py:169 | a match of the bullet pattern has an indent shorter than the line and a non-empty `(.+)` group |
| Bullets.BulletLineMatches | agent.py:169 | `MatchBullet` succeeds exactly on the lines the pattern matches, in both directions |
| Bullets.AfterBulletSound | agent.py:169 | after the bullet, the greedy `\s+` leaves a non-empty `(.+)`, backing off by one character only when the line ends in whitespace |
| Bullets.NoBulletsKeepLines | agent.py:167-181 | with no bullet line, the loop keeps every line as it is |
| Bullets.NoBulletsUnchanged | agent.py:183-189 | a reply without bullets is returned unchanged, with no tip |
| Bullets.BulletsBeforeGrows | agent.py:179 | `option_num` never decreases along the lines |
| Bullets.OptionKeysAmong | agent.py:169-179 | after the first `i` lines the keys of `last_options` are exactly "1".."n", where n is the number of bullets among them |
| Bullets.OptionTableKeys | agent.py:175-187 | the option table has one key per bullet line, "1" to the bullet count, which is the count the tip shows |
| Bullets.OptionsAmongAt | agent.py:169-179 | the bullet that is the k-th one is stored under key `str(k)` with its content, and later lines do not overwrite it |
| Bullets.OptionTableAt | agent.py:169-175 | in the final table, the k-th bullet's content is stored under key `str(k)` |
| Bullets.OptionKeysAreNumbers | agent.py:175 | every key is a decimal numeral from 1 to the bullet count |
| Bullets.NumberLinesAt | agent.py:169-178 | a bullet line comes out as its indent, then `**k.** ` with k its rank among the bullets, then its content |
| Bullets.MarkerShown | agent.py:178-183 | the `**k.** ` marker of the k-th bullet appears in the joined output lines |
| Agent.CodeGeneratorAgent.constructor | agent.py:38-75 | a new agent has the thread `code_generator_session`, an empty option table, and the workflow wired to the model, the tools and the system prompt |
| Agent.CodeGeneratorAgent.DisplayQuickStart | agent.py:657-666 | the option table becomes the five starter requests, and the history is unchanged |
| Agent.CodeGeneratorAgent.FormatWithNumbers | agent.py:138-189 | returns `FormatText(text)` and leaves exactly `OptionTable(lines)` in `last_options`, whose keys are all numerals |
| Agent.CodeGeneratorAgent.NumberBullets | agent.py:163-181 | the loop produces the renumbered lines and the option table of all lines |
| Agent.CodeGeneratorAgent.ModelResponse | agent.py:335-403 | the node returns just the model's reply, sent the cleaned state (with the system message in front on a one-message state); the option table is refreshed only when the reply has text |
| Agent.CodeGeneratorAgent.Invoke | agent.py:92-110 | running the compiled graph from `model_response` on the history plus the new human message gives exactly `Workflow.Invoke`'s thread and option table, and the table keeps only numeric keys |
| Agent.CodeGeneratorAgent.HandleInput | agent.py:615-643 | one line of input is classified as `Interpret` says; only a request runs the workflow, on the selected option's text when a known number was typed; the option table keeps only numeric keys |
| Agent.NumberIsNoCommand | agent.py:615-631 | a typed number is neither blank nor a command word |
| Agent.Interpret | agent.py:615-637 | a line is skipped iff it is blank once stripped, and what is submitted is either the line as typed or the text of an option in the table |
| Agent.TypedNumberSelects | agent.py:634-637 | a number that is a key of the table submits that option's text |
| Agent.TypedNumberSelectsBullet | agent.py:169-175 | after formatting a reply, typing the number shown for a bullet submits that bullet's text |
| Agent.RenumberedLineShown | agent.py:178-183 | the formatted text shows the marker `**k.** ` of the k-th bullet |
| Agent.UnknownNumberSentAsTyped | agent.py:634-643 | a number that is not in the table is sent to the model as typed |
| Agent.QuickStartSelection | agent.py:660-666 | on the starter table, typing 1 to 5 submits the matching starter request |
| Recovery.WordEnd | agent.py:435 | the optional language tag `\w+` runs up to the first non-word character |
| Recovery.NextFence | agent.py:435-436 | the next three-backtick fence at or after a position, or none |
| Recovery.FencedBlocksFenceFree | agent.py:435-436 | `re.findall` of the code-block pattern (`FencedBlocks`): no body it yields holds a fence, since the lazy group stops at the first one |
| Recovery.MatchFenceAt | agent.py:435-436 | a match at a fence resumes the search strictly after the opening fence |
| Recovery.SkipUnfenced | agent.py:436 | text without backticks contributes no block and does not change the blocks that follow |
| Recovery.MatchAtFence | agent.py:435 | a fence, a tag, a newline and a backtick-free body up to the next fence give exactly that body |
| Recovery.SingleBlock | agent.py:435-436 | a reply with one fenced block yields exactly that block's body |
| Recovery.FirstMention | agent.py:451-454 | collection starts at the first line that mentions README, documentation, a heading or the file name, in any case |
| Recovery.ReadmeEnd | agent.py:456-462 | collection stops at a line that mentions `tool_use` or `write_file`, or at a fence line once a line has been collected |
| Recovery.CollectReadmeLines | agent.py:446-462 | the README loop collects exactly `ReadmeSection(lines, filename)` |
| Recovery.ReadmeContentFreeOfToolUse | agent.py:464-468 | the collected README text never contains `tool_use`, so the clean-up substitution has nothing to remove |
| Recovery.FirstFence | agent.py:478-482 | the first line that contains a fence |
| Recovery.CollectAfterFence | agent.py:472-491 | the fence loop collects exactly the fence-free lines after the first fence line |
| Recovery.KeptAfterMembers | agent.py:478-488 | a line is collected iff it comes after the first fence and contains no fence |
| Recovery.FenceSectionMembers | agent.py:478-488 | the same, for the whole reply |
| Recovery.RecoverContent | agent.py:434-491 | the three extraction steps, each tried only when the ones before found nothing, give `RecoveredContent` |
| Recovery.ReadmeStep | agent.py:444-470 | the README step yields the stripped, joined README section |
| Recovery.FenceStep | agent.py:472-491 | the fence step yields the stripped, joined fence section |
| Recovery.AutoFixArgs | agent.py:425-504 | the auto-fix computes exactly `AutoFix(args, response, generate)` |
| Recovery.AutoFixKeys | agent.py:425-504 | the auto-fix keeps the argument keys in order and adds at most `content`, at the end |
| Recovery.AutoFixNeedsPathAndReply | agent.py:426-429 | without a previous response or a file path, the arguments are left as they are |
| Recovery.AutoFixOnlySetsContent | agent.py:493-503 | the auto-fix either changes nothing or sets `content` to a non-empty text; every other argument keeps its value |
| Recovery.AutoFixGeneratesReadme | agent.py:497-503 | a README file with no recoverable content gets the generated README, when the generator returns text |
| Recovery.AutoFixUsesTheBlock | agent.py:435-495 | when the response holds one fenced block, its stripped body becomes the content |
| Recovery.TwoBlocks | agent.py:435-436 | a reply with two fenced blocks and no other backtick yields both bodies, in order |
| Recovery.AutoFixUsesTheLastBlock | agent.py:435-495 | with two fenced blocks, the second one's stripped body becomes the content (`code_blocks[-1]`) |
| Messages.PutArgSpec | agent.py:495-503 | `tool_args["content"] = ...` sets that key, keeps every other key's value, and appends the key only when it is new |
| Messages.ArgKeysHasKey | agent.py:425 | `"content" not in tool_args` and `tool_args.get("content")` agree: a key is listed exactly when looking it up finds a value |
| Messages.PutArgKeepsKeysUnique | agent.py:495-503 | assigning a key keeps every key unique, so an argument list that is a dict stays one |
| Dispatch.ToolIndex | agent.py:511 | the first registered tool with the requested name, or none |
| Dispatch.LastResponseContent | agent.py:414-418 | the reverse scan returns the content of the newest message that has content and no `tool_calls` attribute, or "" |
| Dispatch.LastResponseIsNewest | agent.py:414-418 | that content is "" iff no message qualifies; otherwise it is the content of a qualifying message after which none qualifies |
| Dispatch.LastResponseIgnoresReplies | agent.py:416 | appending an AI message never changes the last response |
| Dispatch.AnswerCall | agent.py:421-585 | the tool message for one call: auto-fix the arguments, then answer with the lookup failure, the missing-content error, the tool's output, or the tool's error text |
| Dispatch.Respond | agent.py:511-585 | the answer to a call is empty only when the named tool is registered, the call is not missing its content, and the tool itself returned an empty text |
| Dispatch.ToolUse | agent.py:405-587 | `tool_use` returns exactly `ToolUseDelta`, with one answer per requested call |
| Dispatch.ToolUseAnswersEveryCall | agent.py:420-587 | every call gets exactly one tool message, in order, carrying the call's id |
| Dispatch.UnknownToolReported | agent.py:576-585 | a call to an unregistered tool is answered "Tool X not found" |
| Dispatch.MissingContentSkipsTool | agent.py:516-539 | a registered `write_file` call still without content gets the missing-content error and does not run the tool |
| Dispatch.MissingContentErrorNamesPath | agent.py:517-531 | the missing-content error names the file path (or "unknown") |
| Dispatch.OtherCallsKeepArgs | agent.py:422-425 | calls other than a content-less `write_file` run with their own arguments |
| Dispatch.InvocationAnswered | agent.py:541-575 | a tool that returns has its output as the answer; a tool that raises gets an answer that names the tool |
| Dispatch.ExceptionNamesTool | agent.py:556-566 | all three error texts name the tool |
| Workflow.Step | agent.py:92-110 | one node and the edge after it keep the routing invariant: `tool_use` only runs after a reply that requested tools |
| Workflow.CheckToolUse | agent.py:589-596 | the conditional edge leads to `tool_use` or END, and to `tool_use` exactly when the last message requests tools |
| Workflow.ModelInputShape | agent.py:342-386 | the model is sent the cleaned state, one message per state message, behind the system message only when the state holds exactly one message |
| Workflow.Run | agent.py:92-110 | a run of the graph keeps the routing invariant |
| Workflow.ModelStepRoutes | agent.py:335-403 | `model_response` appends only the reply, and the edge goes to `tool_use` iff the reply requests tools, else to END |
| Workflow.ToolStepAnswers | agent.py:405-587 | `tool_use` appends one tool message per call, with the calls' ids, and returns to `model_response` |
| Workflow.DispatchedRequestKept | agent.py:226-233 | once `tool_use` has answered a request, later cleaning keeps that request |
| Workflow.RunAppendOnly | agent.py:23-25 | a run only appends to the thread: the earlier messages stay in place |
| Workflow.RunSettles | agent.py:589-596 | a run that reaches END stops on a reply that requests no tools |
| Workflow.RunStoresNoSystemMessage | agent.py:342-403 | the system message is never stored in the thread |
| Workflow.SystemPromptOnFirstMessage | agent.py:342-386 | the model sees the system message iff the state holds exactly one message |
| Workflow.RunKeepsOptionsNumbered | agent.py:169-179 | through any run, the option table holds only numeric keys |
| Products.UpdateLoopMerges | fastapi_rest_api.py:201-206 | assigning the sent fields one by one gives the record with every sent field replaced and every other field kept |
| Products.MergedStaysValid | fastapi_rest_api.py:31-45 | a valid update of a valid record is valid |
| Products.InCategoryMembers | fastapi_rest_api.py:141-142 | the category filter keeps exactly the products whose category equals the given one, ignoring case |
| Products.SliceBound | fastapi_rest_api.py:145 | a slice bound normalised as Python does lies within the list |
| Products.PySlice | fastapi_rest_api.py:145 | a slice is at most as long as the list and the window, and holds only list elements |
| Products.PageWindow | fastapi_rest_api.py:127-145 | with non-negative `skip` and `limit`, the page holds at offset `i` the element at `skip + i`, and runs to `skip + limit` or to the end of the list, whichever comes first |
| Products.ProductStore.constructor | fastapi_rest_api.py:67-68 | the table starts empty with `next_id` 1 |
| Products.ProductStore.StoredAreValues | fastapi_rest_api.py:138 | the listed values are exactly the stored records |
| Products.ProductStore.Insert | fastapi_rest_api.py:175-183 | a record is stored under the unused id `next_id`, stamped with one clock reading for both times, and the counter advances by one |
| Products.ProductStore.StartupEvent | fastapi_rest_api.py:72-102 | the two sample products get ids `next_id` and `next_id + 1`, in order |
| Products.ProductStore.GetAllProducts | fastapi_rest_api.py:126-145 | every listed product is stored and matches the category when one is given; with non-negative `skip` and `limit` the page holds, in order, every stored matching product whose position in the filtered list is from `skip` up to `skip + limit` |
| Products.ProductStore.GetProduct | fastapi_rest_api.py:148-159 | the stored product, or 404 with "Product with id N not found" iff the id is absent |
| Products.ProductStore.GetProductsByCategory | fastapi_rest_api.py:229-243 | 404 iff no stored product is in the category; otherwise exactly the stored products of that category |
| Products.ProductStore.CreateProduct | fastapi_rest_api.py:162-185 | an invalid body is refused with 422 and changes nothing; a valid one is stored under the previous `next_id`, which was unused |
| Products.AssignFields | fastapi_rest_api.py:205-206 | the loop over `update_data` yields the record with the sent fields assigned in order |
| Products.ProductStore.UpdateProduct | fastapi_rest_api.py:188-210 | 422 before 404; on success only the sent fields change, `created_at` is kept and `updated_at` is refreshed |
| Products.ProductStore.DeleteProduct | fastapi_rest_api.py:213-226 | 404 when absent; otherwise exactly that id goes and `next_id` stays, so the id is never reused |
| Products.RemoveKeyKeeps | fastapi_rest_api.py:225 | deleting a key keeps every other key, in the same relative order |
| Text.SplitLastIsTail | app.py:161 | `split(sep)[-1]` is a suffix that starts right after an occurrence of the separator when there is one |
| Text.JoinSplit | agent.py:162-182 | joining the split lines with newlines gives back the text |
| WebApp.FormatAgentResponse | app.py:146-173 | the text is passed through; `tool_calls` and `files_created` are the per-dict summaries and file entries, and both are empty when `tool_results` is `None` or empty |
| WebApp.SummariesPerDict | app.py:151-167 | one `tool_calls` entry per dict element, in order; other elements are skipped |
| WebApp.FilesFromWrites | app.py:158-162 | every file entry comes from a dict that reports a write and whose result contains "to ", and there are never more files than tool calls |
| WebApp.FilePathAfterLastTo | app.py:160-161 | the file path is the stripped text after the last "to ", and it contains no "to " |
| WebApp.Dicts | app.py:152-153 | the dict elements of `tool_results`, in order |
| WebApp.AssembleResponse | app.py:258-270 | the loop builds `ResponseText` and `ToolResults` of the thread |
| WebApp.ToolResultsPerCall | app.py:265-270 | one `tool_results` entry per requested tool call, in order, named after the call and without a result |
| WebApp.ContentShown | app.py:262-264 | every non-empty message content appears in the response text, followed by a blank line |
| WebApp.GeneratedFilesNone | app.py:258-279 | for `generate_code`, `files_created` is empty and every tool-call summary has an empty result |
| WebApp.AgentManager.constructor | app.py:46-49 | both dictionaries start empty |
| WebApp.AgentManager.GetOrCreateAgent | app.py:51-62 | a known session keeps its agent; an unknown one gets a fresh agent, initialised with the five quick-start options, and the thread `web_session_<id>`; both maps then hold the session, and no two sessions share an agent |
| WebApp.AgentManager.CleanupAgent | app.py:64-70 | a known session is removed from both maps; an unknown one changes nothing |
| WebApp.AgentManager.RunSession | app.py:244-255 | the session's agent, new or known, runs the workflow on the prompt; the agents of the other sessions keep every field |
| WebApp.WebReply | app.py:258-279 | the reply holds every text of the thread, one summary with an empty result per requested tool call, and no files |
| WebApp.AgentManager.GenerateCode | app.py:233-279 | an empty prompt is refused; otherwise the session's agent runs the workflow (a new one from the quick-start options), the answer holds the thread's texts, one summary per requested call, and no files, and the agents of the other sessions keep their threads and option tables |

## Left out

- The language model and the tools are parameters. The model is a total function from
  messages to a reply, and a tool is a function from arguments to an output or an
  error. Their own behaviour, the network and the file system are not modelled.
  `_generate_basic_readme` is a parameter too, because it reads the file system.
- LangGraph internals, the SQLite checkpointer and `cleanup` are left out. Of
  `initialize`, only its last step, `_display_quick_start`, is modelled, so a new web
  agent starts with the five quick-start options. A thread is the agent's `history`,
  and a node's messages are appended to it. In the web front end, each agent's
  `history` is the thread of its own web session.
- WebApp.AgentManager.GetOrCreateAgent: a new agent's thread starts empty in the
  model. In the source, the thread lives in `code_generator_checkpoints.db`
  (agent.py:115-118) and outlives the agent. A client that sends the same `session_id`
  after `cleanup_agent` or a restart resumes the stored messages.
- WebApp.AgentManager.GenerateCode: for a new session the model runs the workflow on
  an empty thread, so the `response` it promises leaves out messages the database may
  still hold for `web_session_<id>`.
- Agent.CodeGeneratorAgent.constructor: the CLI thread `code_generator_session` starts
  empty in the model, although the source resumes it from the database on a later
  launch.
- Workflow.Run: runs are bounded by a `fuel` count of node executions. The source has
  no bound; a run that would need more steps is cut short in the model.
- Console output, spinners and panels are left out. So are `_display_welcome`,
  `_display_help`, `_display_tools`, the prompt input of `run`, and its exception
  handlers. Printing is treated as free of effects, which it is not always, as the
  next three lines say.
- Dispatch.InvocationAnswered: in the command-line agent, Rich parses markup in what it
  prints, including the tool's output shown in a panel (agent.py:544-548). An output
  with an unmatched closing tag such as `[/]` raises there, after the tool has run, so
  the call is answered "Tool error in ..." instead of with the output.
- Dispatch.ToolUse: in that case the error print at agent.py:565 raises again, so the
  exception leaves `tool_use` and no tool message is returned; the model always returns
  one tool message per call.
- Agent.CodeGeneratorAgent.HandleInput: the `Selected:` line (agent.py:636) raises in
  the same way for an option text with such a tag, and the handler at agent.py:653 can
  raise out of `run`; the model submits the option. The web front end prints nothing
  (app.py:31-42) and is not affected.
- Text.Lower: `lower()`, `upper()` and `\w` are modelled on ASCII letters, digits and
  `_`. Python applies them to all of Unicode. `isdigit()` is likewise modelled as the
  ASCII digits.
- Messages.GetArg: an argument list may repeat a key, which a dict cannot. Look-up and
  assignment then act on the first occurrence. On lists without repeated keys
  (`UniqueKeys`) this is dict behaviour, and `PutArg` keeps a list so
  (`Messages.PutArgKeepsKeysUnique`).
- Message contents are strings. Lists of content blocks (agent.py:144-154) are not
  modelled, and neither are argument values that are not strings.
- Dispatch.KeysRepr: the list of argument keys is printed as `['a', 'b']`. Keys that
  Python's `repr` would escape are not escaped.
- The `re.sub` clean-up of the README text (agent.py:468) is not modelled. It has
  nothing to remove, because the collected text holds no `tool_use`
  (`Recovery.ReadmeContentFreeOfToolUse`).
- Products: prices are exact reals, not binary floating point. Clock readings
  (`datetime.now()`) are parameters. An update that sends an explicit `null` for name,
  price, quantity or category is not modelled; for `description` it is.
- WebApp.GenerateCode: the uuid is a parameter, the 500 response for an exception is
  left out, and the `args` of each `tool_results` entry is not kept, because
  `format_agent_response` never reads it.
- Web routing, CORS, static files, websockets (`ConnectionManager`,
  `websocket_endpoint`), uvicorn, and async or concurrent access are left out.
- `data_processing.py`, `main.py`, `test_setup.py` and the tool implementations in
  `tools/` are not part of this model.
