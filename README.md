# LM Studio tool-use chat client, modelled in Dafny

The system is a terminal chat client built on a local LM Studio server. The
model can ask it to look something up on Wikipedia or to run a shell
command, and a command runs only after the user confirms it. This project
models three parts of it:

- **The turn state machine of `chat_loop`** (`chat.dfy`). It works on an
  append-only transcript `messages`, which starts as the system prompt. A
  user turn first appends the stripped input line. It then appends one of
  two things:
  - the plain reply, or
  - an echo of the model's tool calls, one tool message per call (in call
    order, each answering its call's id), and the streamed follow-up reply.

  A line that reads "quit" ends the loop with exit status 0. Any exception
  ends the program with status 1.
- **The shell confirmation gate** (`shell.dfy`). The command runs only when
  the answer, once stripped and lower-cased, is "yes" or "y".
- **`ToolBase.get_tool_spec`** (`base_tool.dfy`), plus its use on the
  concrete `CustomTools` class (`custom_tools.dfy`). Every public method
  defined on the class itself becomes a tool specification:
  - its name;
  - the first non-blank docstring line, as the description;
  - a JSON parameter schema derived from the signature, with descriptions
    from the `:param name: text` lines of the docstring.

`text.dfy` holds the pieces of Python string handling the code relies on:
`strip`, `lower`, `splitlines`, `split('.')[0]` and `startswith`.
`wrappers.dfy` holds `Option`.

Each loop of the source is a method proved against a specification
function:
- `ChatSession.Turn`, `ChatSession.DispatchCalls`, `ChatSession.Run` and
  `CollectStream` for `chat_loop`;
- `ParseParamDocs`, `BuildParameters`, `FirstNonEmptyLine` and `GetToolSpec`
  for `get_tool_spec`;
- `GetUserNameAndEmailAndId` for the `+=` chain of
  `get_user_name_and_email_and_id`.

The lemmas state what the source promises about those specification
functions.

## Model

| member | source | states |
|---|---|---|
| Shell.Confirmed | main.py:99-100 | Definition of the gate's test: the stripped, lower-cased answer is "yes" or "y". Its meaning is stated by `ConfirmedAnswers` and `ConfirmedPadded`. |
| Shell.RunShellCommand | main.py:93-112 | The command runs iff the stripped, lower-cased answer is "yes" or "y". Otherwise the result is the abort record with status "aborted". A completed run gives stdout, stderr and returncode; a raised exception gives an error record with its message. |
| Shell.ConfirmedAnswers | main.py:99-100 | The confirming answers are exactly "y" and "yes", in any mix of case, once stripped; everything else, including "" and "no", aborts. |
| Shell.ConfirmedPadded | main.py:99-100 | Whitespace around the typed answer never changes the decision. |
| Shell.ResultStatus | main.py:83-90 | The status field is one of "success", "aborted" or "error", and it is "success" exactly for an article or a completed command. |
| Chat.FetchWikipediaContent | main.py:34-90 | Success iff a page was found, giving its title and the stripped extract. An empty search or page id "-1" gives "No Wikipedia article found for '<query>'". No failure is raised. |
| Chat.Dispatch | main.py:261-290 | The pass raises iff `json.loads` raises, or a known tool's argument key cannot be read: the arguments are not an object or lack the key. The wiki call gives the lookup's result and records the query. The shell call gives the gate's result, asks about the command, and runs it iff the answer confirms. An unknown tool name gives the "Unknown tool call." error and invokes nothing, whatever the arguments decode to. |
| Chat.DispatchRan | main.py:271-272 | A command is run only by a run_shell_command call whose "command" argument is that command and whose answer confirms it. |
| Chat.DispatchAll | main.py:261-298 | Definition of the tool-call loop: a tool message per dispatched call, stopping at the first pass that raises. Its meaning is stated by `DispatchAllCount`, `DispatchAllAt`, `DispatchAllStops` and `DispatchAllRan`. |
| Chat.DispatchAllCount | main.py:261-298 | A completed batch has exactly one tool message per call. An interrupted batch stops right before the first call whose pass raises. |
| Chat.DispatchAllAt | main.py:292-298 | Tool message k answers call k: it holds that call's dispatch result and carries its id, so the messages follow call order. |
| Chat.DispatchAllStops | main.py:261-262 | Once a pass raises, no later call is dispatched or appended. |
| Chat.DispatchAllRan | main.py:261-298 | Every command a batch ran comes from a shell call with a confirmed answer and that command argument. |
| Chat.Deltas | main.py:306-310 | Definition of the chunks that `if chunk.choices[0].delta.content` lets through. `ConcatDeltas` states that skipping them loses no text. |
| Chat.ConcatDeltas | main.py:306-310 | Skipping absent and empty chunks loses no text: the collected reply is the concatenation of all chunk texts, in order. |
| Chat.CollectStream | main.py:305-310 | The loop's `collected_content` equals the concatenation of the non-empty deltas. |
| Chat.IsQuit | main.py:229-231 | Definition of the quit test on the typed line, used by `TurnUserFirst` and `SessionExitCode`. |
| Chat.TurnSpec | main.py:228-326 | Definition of one pass of `while True`: what it appends, the requests it sends, the tools it invokes, and how it ends. Its meaning is stated by the `Turn…` lemmas and by `ChatSession.Turn`. |
| Chat.ToolTurn | main.py:243-317 | Definition of the rest of a turn whose reply has tool calls. `ToolTurnShape` and `TurnToolCalls` state its shape. |
| Chat.TurnStatus | main.py:228-339 | Definition of how a turn ends from the world's answers alone: `Failed` at end of input, a raising request, an unfinished batch or a failed stream; `Quit` on the quit line; `Continued` otherwise. `TurnStatusOf` ties it to `TurnSpec`, and `SessionExitCode` and `ChatLoop` state the exit status through it. |
| Chat.TurnStatusOf | main.py:228-339 | How a turn ends (continue, quit, fail) depends only on what the world answers, not on the transcript. |
| Chat.TurnUserFirst | main.py:229-241 | The turn quits iff the stripped, lower-cased line is "quit"; then nothing is appended or sent. Otherwise the stripped line is appended first, and the first request carries that transcript, both tools and no streaming. |
| Chat.TurnPlainReply | main.py:318-326 | A reply without tool calls appends exactly one assistant message with the reply's content. It makes one request and invokes no tool. |
| Chat.TurnToolCalls | main.py:243-317 | A reply with tool calls appends 2 + n + 1 messages: the user line, the echo of all calls before any result, one tool message per call in call order, and the streamed reply last. The follow-up request carries everything but that last reply, no tools, and stream on. |
| Chat.TurnRanConfirmed | main.py:261-298 | A command runs during a turn only for a shell call of the model's reply whose confirmation was given. |
| Chat.Session | main.py:207-339 | The exit status is 0 or 1, and running out of input gives 1. |
| Chat.SessionExtends | main.py:207-339 | The transcript is append-only: every session keeps the transcript it started from as a prefix. |
| Chat.SessionExitCode | main.py:228-231 | The exit status is 0 iff some turn quits and every turn before it continued. |
| Chat.ChatSession.constructor | main.py:211-220 | The transcript starts as the system prompt alone. |
| Chat.ChatSession.Turn | main.py:228-326 | One pass of `while True` appends to `messages` in place exactly what the turn specification appends. It reports the same requests, invocations and status. |
| Chat.ChatSession.DispatchCalls | main.py:261-298 | The tool-call loop appends the batch's tool messages in place and stops at the first pass that raises. |
| Chat.ChatSession.Run | main.py:228-339 | The loop leaves `messages` as the session's transcript. It returns the session's exit status, requests and invocations. |
| Chat.ChatLoop | main.py:207-339 | `chat_loop` exits with status 0 iff some turn quits after only turns that went through. |
| ToolBase.MatchParam | tools/base_tool.py:44 | A match starts with ":param" and has a non-empty all-word-character name. |
| ToolBase.MatchParamComplete | tools/base_tool.py:44-47 | Every line of the form `:param<blanks><word>:<blanks><text>` matches, with the name and the text as its two groups. |
| ToolBase.MatchParamSound | tools/base_tool.py:44-47 | Conversely, every single-line match has exactly that form. |
| ToolBase.FirstLine | tools/base_tool.py:44 | The `.*` group contains no line break and is a prefix of what follows the blanks. |
| ToolBase.ParamDocs | tools/base_tool.py:38-47 | Definition of `param_docs` after the docstring loop. Its meaning is stated by `ParamDocsHas`, `ParamDocsLast`, `ParamDocsNone` and `ParamDocsOne`. |
| ToolBase.ParamDocsHas | tools/base_tool.py:40-47 | A parameter name is documented iff some stripped docstring line matches the pattern with that name. |
| ToolBase.ParamDocsLast | tools/base_tool.py:40-47 | A documented name's description comes from the last line documenting it: later lines overwrite earlier ones. |
| ToolBase.ParamDocsNone | tools/base_tool.py:40-47 | A docstring with no matching line documents nothing. |
| ToolBase.ParamDocsOne | tools/base_tool.py:40-47 | A docstring with a single matching line documents exactly that name with that text. |
| ToolBase.JsonType | tools/base_tool.py:53-65 | The type is one of the six JSON types, and it is "string" exactly for `str`, missing and unknown annotations. |
| ToolBase.Schema | tools/base_tool.py:71-74 | The schema type is "object". The "required" key is absent iff no parameter is required, and is never present but empty. |
| ToolBase.Properties | tools/base_tool.py:49-70 | Definition of `parameters_schema["properties"]` in insertion order. Its meaning is stated by `PropertiesCount`, `PropertiesAt`, `PropertiesFrom` and `PropertiesKeysDistinct`. |
| ToolBase.Required | tools/base_tool.py:49-72 | Definition of `parameters_schema["required"]` before the `pop`. Its meaning is stated by `RequiredCount`, `RequiredAt`, `RequiredMember` and `RequiredAbsent`. |
| ToolBase.PropertiesCount | tools/base_tool.py:49-70 | There is one property per parameter other than `self`. |
| ToolBase.PropertiesAt | tools/base_tool.py:49-70 | Each parameter other than `self` has its property in signature order. The property is keyed by its name, typed by its annotation, and described iff the docstring documents it. |
| ToolBase.PropertiesFrom | tools/base_tool.py:49-70 | Every property comes from a parameter other than `self`; no key is "self". |
| ToolBase.PropertiesKeysDistinct | tools/base_tool.py:70 | With distinct parameter names, each property key occurs once. |
| ToolBase.RequiredCount | tools/base_tool.py:71-72 | "required" has one entry per parameter that is not `self` and has no default. |
| ToolBase.RequiredAt | tools/base_tool.py:71-72 | Required names appear in signature order. |
| ToolBase.RequiredMember | tools/base_tool.py:49-72 | A name is required iff it names a parameter that is not `self` and has no default. |
| ToolBase.RequiredAbsent | tools/base_tool.py:73-74 | The "required" key is dropped iff every parameter is `self` or has a default. |
| ToolBase.Description | tools/base_tool.py:76-82 | The description is "" iff every docstring line is blank. Otherwise it is the first non-blank line, stripped. |
| Text.Strip | tools/base_tool.py:41 | `str.strip()`: the result is no longer than the input. `StripSpec`, `StripPadded` and `StripIndented` state what it removes. |
| Text.Lower | main.py:230 | `str.lower()` over ASCII: the same length, with each character lower-cased in place. |
| Text.Head | tools/base_tool.py:32 | `split('.')[0]`: a prefix of the input that holds no `.`; `HeadOf` states it is everything before the first `.`. |
| Text.SplitLines | tools/base_tool.py:40 | `splitlines()` for "\n" breaks: no line holds a break. `SplitJoin` and `JoinSplit` make it the inverse of joining. |
| Text.StripPadded | tools/base_tool.py:41 | Whitespace around a string never changes what `strip` returns. |
| Text.HeadOf | tools/base_tool.py:32 | `split('.')[0]` of a string is everything before its first `.`. |
| Text.StripSpec | tools/base_tool.py:41 | `strip` leaves no whitespace at either end of its result. |
| Text.SplitJoin | tools/base_tool.py:40 | `splitlines` of lines joined by line breaks gives the lines back, when no line has a break and the last is not empty. |
| Text.JoinSplit | tools/base_tool.py:40 | Joining what `splitlines` returns gives the text back, except for one final line break, which `splitlines` drops. |
| ToolBase.IsTool | tools/base_tool.py:24-33 | Definition of the attribute filter: public, callable, and with a qualified-name head equal to the class name. |
| ToolBase.SpecOf | tools/base_tool.py:35-90 | Definition of one tool spec: the name, the `Description` of the docstring lines, and the `Schema` of the signature and `ParamDocs`. |
| ToolBase.DeriveSpecs | tools/base_tool.py:23-91 | Definition of the list `get_tool_spec` returns. Its meaning is stated by the `DeriveSpecs…` lemmas. |
| ToolBase.DeriveSpecsCount | tools/base_tool.py:23-90 | There is one spec per public, callable attribute defined on the class itself. |
| ToolBase.DeriveSpecsAt | tools/base_tool.py:24-90 | Each tool attribute's spec appears in `dir()` order, built from its name, docstring and signature. |
| ToolBase.DeriveSpecsFrom | tools/base_tool.py:24-33 | Every spec comes from a public callable whose qualified name starts with the class name. No spec name starts with "_". |
| ToolBase.DeriveSpecsPrivate | tools/base_tool.py:26-27 | Attributes whose names start with "_" never yield a spec. |
| ToolBase.DeriveSpecsAppend | tools/base_tool.py:24-90 | Deriving over two runs of attributes concatenates the specs of each. |
| ToolBase.ParseParamDocs | tools/base_tool.py:38-47 | The docstring loop builds the parameter-description map of the docstring's lines. |
| ToolBase.BuildParameters | tools/base_tool.py:36-74 | The signature loop and the `pop` build the schema: properties and required list in signature order. |
| ToolBase.FirstNonEmptyLine | tools/base_tool.py:76-82 | The description loop stops at the first non-blank line and yields it stripped. |
| ToolBase.GetToolSpec | tools/base_tool.py:14-91 | `get_tool_spec` returns the derived spec list of the listed attributes. |
| CustomTools.NamePart | tools/custom_tools.py:15-16 | Definition of the "User: <name>" segment, present iff the key is. |
| CustomTools.IdPart | tools/custom_tools.py:17-18 | Definition of the " (ID: <id>)" segment, present iff the key is. |
| CustomTools.EmailPart | tools/custom_tools.py:19-20 | Definition of the " (Email: <email>)" segment, present iff the key is. |
| CustomTools.UserSummary | tools/custom_tools.py:9-23 | The summary is never empty. |
| CustomTools.UserSummaryUnknown | tools/custom_tools.py:14-22 | The summary is "User: Unknown" iff the object has none of the three keys, or only a name and that name is "Unknown". |
| CustomTools.UserSummarySegments | tools/custom_tools.py:15-20 | The summary is exactly as long as the segments of the keys present. The name segment opens it, the id segment follows it, and the email segment closes it. Together these fix the whole string. |
| CustomTools.GetUserNameAndEmailAndId | tools/custom_tools.py:9-23 | The `+=` chain returns the summary. |
| CustomTools.RunShellCommand | tools/custom_tools.py:69-90 | The class's shell tool runs the command iff the answer confirms it; otherwise it returns the abort record. |
| CustomTools.CalculatorSpecOf | tools/custom_tools.py:35-39 | `calculator` yields the spec with its first docstring line and a required string parameter "equation" described by its `:param` line. |
| CustomTools.CurrentTimeSpecOf | tools/custom_tools.py:25-29 | `get_current_time` yields the spec with no properties and no "required" key; its `:return:` line documents nothing. |
| CustomTools.CurrentWeatherSpecOf | tools/custom_tools.py:47-52 | `get_current_weather` yields a required string parameter "city" with its `:param` description. |
| CustomTools.UserInfoSpecOf | tools/custom_tools.py:9-12 | `get_user_name_and_email_and_id` yields an undescribed "object" property `__user__`. It is not required because it has a default, so the "required" key is absent. |
| CustomTools.RunShellSpecOf | tools/custom_tools.py:69-75 | `run_shell_command` yields a required string parameter "command". A blank docstring line before the `:param` line changes nothing. |
| CustomTools.InheritedNotTool | tools/base_tool.py:31-33 | The inherited `get_tool_spec` is skipped, because its qualified name starts with "ToolBase". |
| CustomTools.CustomToolsSpecs | tools/custom_tools.py:8-90 | `get_tool_spec` on a `CustomTools` instance yields exactly five specs, in alphabetical order, whatever private attributes are listed before the public ones. |
| CustomTools.GetCustomToolSpecs | tools/base_tool.py:14-91 | Running `get_tool_spec` step by step on `CustomTools` returns those five specs. |

## Left out

- Network access is not modelled. The two Wikipedia requests become a `WikiLookup` value, and the model server's replies and stream become `TurnEnv` values.
- The terminal is not modelled: `input`, `print`, the `Spinner` thread, ANSI colours and `print_fancy_section`. Typed lines and answers are parameters, and an `EOFError` from the line prompt is the `None` line.
- `subprocess.run` is not modelled; its outcome is a parameter (`ExecOutcome`).
- JSON is not modelled as text. `json.loads` of the arguments gives one of three things: `Undecodable` when it raises, `NotObject` for a list, string, number or `null`, or an object with all its keys. A value that is not a string is kept as its `str()` text, so a known tool with such an argument is still called, as in the source. `json.dumps` of a result is the result record itself.
- Chat.Dispatch: a non-string argument reaches the tool as its `str()` text rather than as the JSON value itself. The two tools only format it into a URL, a message or a command line. The shell call's outcome stays a free `ExecOutcome`, so a `TypeError` from `subprocess.run` is the `Raised` case.
- Chat.Dispatch: an `EOFError` raised by the confirmation prompt inside the shell tool is not modelled; the answer is always a string.
- The tool calls are those of the reply (`Reply.toolCalls`). What the outside world answers to call `k` is `outcome(k)`: its decoded arguments, the Wikipedia lookup, the typed answer and the shell outcome. It is given by position and is not related to the answers to earlier calls.
- The bodies of `calculator` (`eval`), `get_current_time` (the wall clock) and `get_current_weather` (environment variable and HTTP request) are not modelled. Their signatures and docstrings are, because the specs come from them. `print(__user__)` is left out too.
- Reflection is an input list of attributes. The dunder attributes `dir()` lists are abstracted as any run of "_"-named attributes before the public ones. `attr.__name__` is taken to be the attribute's name, and an absent docstring is "".
- Python string handling is restricted to ASCII: `\s`, `\w`, `strip` and `lower` use the ASCII classes. `splitlines` splits on "\n" only.
- ToolBase.Schema: the parameter names that `inspect.signature` reports for a bound method never include `self`. The model keeps the source's `self` filter anyway, so it covers unbound signatures too.
- CustomTools.UserSummaryUnknown: the user object's values are strings, so the f-string formatting of other value types is not modelled.
