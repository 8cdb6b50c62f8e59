/** The turn logic of `chat_loop`: an append-only transcript that each user
    turn extends with the user message, then either the plain reply or an
    echo of the tool calls, one tool message per call and the streamed
    follow-up reply.

    The model server, Wikipedia, the terminal and the shell are not
    modelled; what they answer is given as an environment per turn. Every
    exception the turn body raises ends the session with exit status 1. */
module Chat {
  import opened Wrappers
  import opened Text
  import opened Shell
  import ToolBase

  const SystemPrompt :=
    "You are an assistant that can retrieve Wikipedia articles and execute shell commands. "
    + "When asked about a topic, you can retrieve Wikipedia articles and cite information from them, "
    + "or if necessary, execute shell commands after obtaining user confirmation."

  const WikiName := "fetch_wikipedia_content"
  const ShellName := "run_shell_command"
  const UnknownToolMessage := "Unknown tool call."

  /** A tool offered to the model: `{"type": "function", "function": ...}`. */
  datatype ToolDef = ToolDef(name: string, description: string, parameters: ToolBase.Parameters)

  const WikiTool := ToolDef(
    WikiName,
    "Search Wikipedia and fetch the introduction of the most relevant article. "
    + "Always use this if the user is asking for something that is likely on Wikipedia. "
    + "If the user has a typo in their search query, correct it before searching.",
    ToolBase.Parameters("object",
      [("search_query", ToolBase.Prop("string", Some("Search query for finding the Wikipedia article")))],
      Some(["search_query"])))

  const ShellTool := ToolDef(
    ShellName,
    "Execute a shell command on the local machine after obtaining user verification. "
    + "Ask the user to confirm the execution before running the command.",
    ToolBase.Parameters("object",
      [("command", ToolBase.Prop("string", Some("Shell command to be executed on the host machine")))],
      Some(["command"])))

  /** The `function` of a tool call: a name and JSON-encoded arguments. */
  datatype FunctionCall = FunctionCall(name: string, arguments: string)

  /** A tool call of the model's reply: `id`, `type` and `function`. */
  datatype ToolCall = ToolCall(id: string, kind: string, call: FunctionCall)

  /** The entries of `messages`. A tool message carries the result record
      that `json.dumps` serialises. */
  datatype Message =
    | SystemMessage(content: string)
    | UserMessage(content: string)
    | AssistantReply(reply: Option<string>)
    | AssistantToolCalls(toolCalls: seq<ToolCall>)
    | ToolMessage(result: ToolResult, toolCallId: string)

  /** One `client.chat.completions.create` call: the transcript as it stood,
      the tools offered and whether the reply is streamed. */
  datatype Request = Request(messages: seq<Message>, tools: seq<ToolDef>, stream: bool)

  /** The first choice's message of a reply; an empty `toolCalls` stands for
      a missing or empty `tool_calls`. */
  datatype Reply = Reply(content: Option<string>, toolCalls: seq<ToolCall>)

  /** What the two Wikipedia requests give: the page found, no article (an
      empty search or page id "-1"), or the message of an exception. */
  datatype WikiLookup = Page(title: string, extract: string) | NoArticle | LookupFailed(reason: string)

  /** `fetch_wikipedia_content`: every failure is reported as an error
      result, never raised. */
  function FetchWikipediaContent(query: string, lookup: WikiLookup): (r: ToolResult)
    ensures ResultStatus(r) == "success" <==> lookup.Page?
    ensures lookup.Page? ==> r == Article(lookup.title, Strip(lookup.extract))
    ensures lookup.NoArticle? ==> r == Error("No Wikipedia article found for '" + query + "'")
  {
    match lookup
    case Page(title, extract) => Article(title, Strip(extract))
    case NoArticle => Error("No Wikipedia article found for '" + query + "'")
    case LookupFailed(reason) => Error(reason)
  }

  /** What `json.loads` makes of a call's arguments: it raises, it gives a
      value that is not an object (a list, a string, a number, `null`), or it
      gives an object. Every key of the object is kept; a value that is not a
      string is kept as the text `str()` gives it (`1984` as "1984"), which
      is all that the tools do with it: they put it into a URL, a message or
      a command line. */
  datatype Args = Undecodable | NotObject | Object(fields: map<string, string>)

  /** `args[key]` does not raise. */
  predicate Has(args: Args, key: string) {
    args.Object? && key in args.fields
  }

  /** What the outside world answers to one tool call: the decoded
      arguments, the Wikipedia lookup, the typed confirmation and the shell
      outcome. */
  datatype CallEnv = CallEnv(args: Args, lookup: WikiLookup, answer: string, exec: ExecOutcome)

  /** What a tool call did outside the transcript: a Wikipedia query, a
      confirmation prompt, a command that was run. */
  datatype Invocation = Fetched(query: string) | Asked(command: string) | Ran(command: string)

  /** One pass of the body of `for tool_call in tool_calls` up to the append:
      the result and what was invoked, or `None` when the pass raises. The
      arguments are decoded before the name is looked at, but they are
      indexed only for the two known tools, so a call of an unknown tool
      gets the error result whatever its arguments decode to. */
  function Dispatch(tc: ToolCall, env: CallEnv): (d: Option<(ToolResult, seq<Invocation>)>)
    ensures d.None? <==>
              env.args.Undecodable? ||
              (tc.call.name == WikiName && !Has(env.args, "search_query")) ||
              (tc.call.name == ShellName && !Has(env.args, "command"))
    ensures d.Some? && tc.call.name == WikiName ==>
              Has(env.args, "search_query") &&
              var query := env.args.fields["search_query"];
              d.value == (FetchWikipediaContent(query, env.lookup), [Fetched(query)])
    ensures d.Some? && tc.call.name == ShellName ==>
              Has(env.args, "command") &&
              var command := env.args.fields["command"];
              d.value.0 == RunShellCommand(env.answer, env.exec).0 &&
              d.value.1 == [Asked(command)] + (if Confirmed(env.answer) then [Ran(command)] else [])
    ensures d.Some? && tc.call.name != WikiName && tc.call.name != ShellName ==>
              d.value == (Error(UnknownToolMessage), [])
  {
    if env.args.Undecodable? then None
    else if tc.call.name == WikiName then
      if Has(env.args, "search_query") then
        var query := env.args.fields["search_query"];
        Some((FetchWikipediaContent(query, env.lookup), [Fetched(query)]))
      else None
    else if tc.call.name == ShellName then
      if Has(env.args, "command") then
        var command := env.args.fields["command"];
        var (result, ran) := RunShellCommand(env.answer, env.exec);
        Some((result, [Asked(command)] + if ran then [Ran(command)] else []))
      else None
    else Some((Error(UnknownToolMessage), []))
  }

  /** A command runs only for a shell call whose confirmation was given. */
  lemma DispatchRan(tc: ToolCall, env: CallEnv, command: string)
    requires Dispatch(tc, env).Some? && Ran(command) in Dispatch(tc, env).value.1
    ensures tc.call.name == ShellName && Has(env.args, "command")
    ensures env.args.fields["command"] == command
    ensures Confirmed(env.answer)
  {
  }

  /** The tool messages of a run of tool calls, what they invoked, and
      whether every pass finished; the loop stops at the first pass that
      raises. `outcome(k)` is what the world answers to call `k`. */
  datatype Batch = Batch(messages: seq<Message>, invoked: seq<Invocation>, completed: bool)

  function DispatchAll(calls: seq<ToolCall>, outcome: nat -> CallEnv): Batch {
    if calls == [] then Batch([], [], true)
    else
      var n := |calls| - 1;
      var prev := DispatchAll(calls[..n], outcome);
      if !prev.completed then prev
      else match Dispatch(calls[n], outcome(n))
        case None => Batch(prev.messages, prev.invoked, false)
        case Some((result, inv)) =>
          Batch(prev.messages + [ToolMessage(result, calls[n].id)], prev.invoked + inv, true)
  }

  /** A finished batch has one message per call; an unfinished one stops
      right before the first call whose pass raises. */
  lemma {:induction false} DispatchAllCount(calls: seq<ToolCall>, outcome: nat -> CallEnv)
    ensures var b := DispatchAll(calls, outcome);
            if b.completed then |b.messages| == |calls|
            else |b.messages| < |calls| && Dispatch(calls[|b.messages|], outcome(|b.messages|)).None?
  {
    if calls != [] {
      var n := |calls| - 1;
      var init := calls[..n];
      DispatchAllCount(init, outcome);
      var prev := DispatchAll(init, outcome);
      if !prev.completed {
        assert calls[|prev.messages|] == init[|prev.messages|];
      }
    }
  }

  /** Message `k` of a batch is the tool message of call `k`: its result is
      what dispatching that call gave and its `tool_call_id` is the call's
      id. So the tool messages follow call order, one per call. */
  lemma {:induction false} DispatchAllAt(calls: seq<ToolCall>, outcome: nat -> CallEnv, k: nat)
    requires k < |DispatchAll(calls, outcome).messages|
    ensures k < |calls| && Dispatch(calls[k], outcome(k)).Some?
    ensures DispatchAll(calls, outcome).messages[k] ==
              ToolMessage(Dispatch(calls[k], outcome(k)).value.0, calls[k].id)
  {
    var n := |calls| - 1;
    var init := calls[..n];
    var prev := DispatchAll(init, outcome);
    if k < |prev.messages| {
      DispatchAllAt(init, outcome, k);
      assert init[k] == calls[k];
    } else {
      DispatchAllCount(init, outcome);
    }
  }

  /** Once a pass raises, later calls are not dispatched. */
  lemma {:induction false} DispatchAllStops(calls: seq<ToolCall>, outcome: nat -> CallEnv, i: nat)
    requires i < |calls| && DispatchAll(calls[..i], outcome).completed
    requires Dispatch(calls[i], outcome(i)).None?
    ensures DispatchAll(calls, outcome) ==
              Batch(DispatchAll(calls[..i], outcome).messages, DispatchAll(calls[..i], outcome).invoked, false)
  {
    var n := |calls| - 1;
    var init := calls[..n];
    if i < n {
      assert init[..i] == calls[..i] && init[i] == calls[i];
      DispatchAllStops(init, outcome, i);
    } else {
      assert init == calls[..i];
    }
  }

  /** Every command a batch ran came from a shell call whose confirmation
      was given. */
  lemma {:induction false} DispatchAllRan(calls: seq<ToolCall>, outcome: nat -> CallEnv, command: string)
    requires Ran(command) in DispatchAll(calls, outcome).invoked
    ensures exists k :: 0 <= k < |calls| && calls[k].call.name == ShellName &&
              Confirmed(outcome(k).answer) && Has(outcome(k).args, "command") &&
              outcome(k).args.fields["command"] == command
  {
    var n := |calls| - 1;
    var init := calls[..n];
    var prev := DispatchAll(init, outcome);
    if Ran(command) in prev.invoked {
      DispatchAllRan(init, outcome, command);
      var k :| 0 <= k < n && init[k].call.name == ShellName && Confirmed(outcome(k).answer) &&
               Has(outcome(k).args, "command") && outcome(k).args.fields["command"] == command;
      assert calls[k] == init[k];
    } else {
      DispatchRan(calls[n], outcome(n), command);
    }
  }

  // ---------------------------------------------------------------------
  // The streamed follow-up reply

  /** The `delta.content` values that `if chunk.choices[0].delta.content:`
      lets through: present and non-empty, in arrival order. */
  function Deltas(chunks: seq<Option<string>>): seq<string> {
    if chunks == [] then []
    else
      var n := |chunks| - 1;
      var c := chunks[n];
      Deltas(chunks[..n]) + if c.Some? && c.value != [] then [c.value] else []
  }

  function Concat(parts: seq<string>): string {
    if parts == [] then [] else Concat(parts[..|parts| - 1]) + parts[|parts| - 1]
  }

  /** Every chunk's text, an absent one as "". */
  function Texts(chunks: seq<Option<string>>): seq<string> {
    if chunks == [] then []
    else
      var n := |chunks| - 1;
      Texts(chunks[..n]) + [match chunks[n] case Some(t) => t case None => ""]
  }

  /** Skipping the empty and absent chunks changes nothing in the text: the
      reply is all the streamed text, in order. */
  lemma {:induction false} ConcatDeltas(chunks: seq<Option<string>>)
    ensures Concat(Deltas(chunks)) == Concat(Texts(chunks))
  {
    if chunks != [] {
      var n := |chunks| - 1;
      ConcatDeltas(chunks[..n]);
      var c := chunks[n];
      var t := match c case Some(t) => t case None => "";
      ConcatSnoc(Deltas(chunks[..n]), if c.Some? && c.value != [] then [c.value] else []);
      ConcatSnoc(Texts(chunks[..n]), [t]);
      if !(c.Some? && c.value != []) {
        assert Deltas(chunks) == Deltas(chunks[..n]);
        assert t == [];
        assert Concat(Texts(chunks)) == Concat(Texts(chunks[..n])) + t;
      }
    }
  }

  lemma ConcatSnoc(parts: seq<string>, more: seq<string>)
    requires |more| <= 1
    ensures Concat(parts + more) == Concat(parts) + Concat(more)
  {
    if more == [] {
      assert parts + more == parts;
    } else {
      assert (parts + more)[..|parts + more| - 1] == parts;
      assert Concat(more) == Concat([]) + more[0];
    }
  }

  /** `collected_content += content` over the stream. */
  method CollectStream(chunks: seq<Option<string>>) returns (collected: string)
    ensures collected == Concat(Deltas(chunks))
  {
    collected := "";
    ghost var parts: seq<string> := [];
    for i := 0 to |chunks|
      invariant parts == Deltas(chunks[..i])
      invariant collected == Concat(parts)
    {
      assert chunks[..i + 1][..i] == chunks[..i];
      var c := chunks[i];
      if c.Some? && c.value != [] {
        ConcatSnoc(parts, [c.value]);
        collected := collected + c.value;
        parts := parts + [c.value];
      }
    }
    assert chunks[..|chunks|] == chunks;
  }

  // ---------------------------------------------------------------------
  // One turn

  /** The follow-up stream: its chunks, and whether creating or reading it
      raised after them. */
  datatype Stream = Stream(chunks: seq<Option<string>>, failed: bool)

  /** What the world answers during one turn: the typed line (`None` when
      `input` raises, at end of input), the first reply (`None` when the
      request raises), the answers to each tool call by position, and the
      follow-up stream. */
  datatype TurnEnv = TurnEnv(line: Option<string>, reply: Option<Reply>,
                             outcome: nat -> CallEnv, stream: Stream)

  /** `Continued`: the loop goes on; `Quit`: the `break`; `Failed`: an
      exception ends the program with status 1. */
  datatype Status = Continued | Quit | Failed

  datatype TurnResult = TurnResult(appended: seq<Message>, requests: seq<Request>,
                                   invoked: seq<Invocation>, status: Status)

  predicate IsQuit(line: string) {
    Lower(Strip(line)) == "quit"
  }

  /** One pass of `while True` in `chat_loop` on the transcript `history`. */
  function TurnSpec(history: seq<Message>, env: TurnEnv): TurnResult {
    match env.line
    case None => TurnResult([], [], [], Failed)
    case Some(line) =>
      if IsQuit(line) then TurnResult([], [], [], Quit)
      else
        var user := UserMessage(Strip(line));
        var first := Request(history + [user], [WikiTool, ShellTool], false);
        match env.reply
        case None => TurnResult([user], [first], [], Failed)
        case Some(reply) =>
          if reply.toolCalls == [] then
            TurnResult([user, AssistantReply(reply.content)], [first], [], Continued)
          else ToolTurn(history, user, reply.toolCalls, env)
  }

  /** The rest of a turn whose reply asks for the tool calls `calls`. */
  function ToolTurn(history: seq<Message>, user: Message, calls: seq<ToolCall>, env: TurnEnv): TurnResult {
    var first := Request(history + [user], [WikiTool, ShellTool], false);
    var batch := DispatchAll(calls, env.outcome);
    var sofar := [user, AssistantToolCalls(calls)] + batch.messages;
    if !batch.completed then TurnResult(sofar, [first], batch.invoked, Failed)
    else
      var follow := Request(history + sofar, [], true);
      if env.stream.failed then TurnResult(sofar, [first, follow], batch.invoked, Failed)
      else
        var final := AssistantReply(Some(Concat(Deltas(env.stream.chunks))));
        TurnResult(sofar + [final], [first, follow], batch.invoked, Continued)
  }

  /** How a turn ends does not depend on the transcript before it. */
  function TurnStatus(env: TurnEnv): Status {
    match env.line
    case None => Failed
    case Some(line) =>
      if IsQuit(line) then Quit
      else match env.reply
        case None => Failed
        case Some(reply) =>
          if reply.toolCalls == [] then Continued
          else if !DispatchAll(reply.toolCalls, env.outcome).completed || env.stream.failed then Failed
          else Continued
  }

  lemma TurnStatusOf(history: seq<Message>, env: TurnEnv)
    ensures TurnSpec(history, env).status == TurnStatus(env)
  {
  }

  /** A line that reads "quit" once stripped and lower-cased ends the loop
      and appends nothing; any other line appends the stripped line as a
      user message first and sends the transcript with both tools. */
  lemma TurnUserFirst(history: seq<Message>, env: TurnEnv)
    requires env.line.Some?
    ensures var r := TurnSpec(history, env);
            (r.status == Quit <==> IsQuit(env.line.value)) &&
            (r.status == Quit ==> r.appended == [] && r.requests == [] && r.invoked == []) &&
            (r.status != Quit ==>
               r.appended != [] && r.appended[0] == UserMessage(Strip(env.line.value)) &&
               r.requests != [] &&
               r.requests[0] == Request(history + [r.appended[0]], [WikiTool, ShellTool], false))
  {
  }

  /** A reply without tool calls appends exactly one assistant message with
      the reply's content, and no tool message. */
  lemma TurnPlainReply(history: seq<Message>, env: TurnEnv)
    requires env.line.Some? && !IsQuit(env.line.value)
    requires env.reply.Some? && env.reply.value.toolCalls == []
    ensures var r := TurnSpec(history, env);
            r.status == Continued && |r.appended| == 2 &&
            r.appended[1] == AssistantReply(env.reply.value.content) &&
            |r.requests| == 1 && r.invoked == []
  {
  }

  /** A reply with tool calls appends the echo of all the calls before any
      tool result, then one tool message per call in call order, each
      answering its call's id, and, when the turn completes, the streamed
      reply last: 1 + calls + 1 messages in all after the user message.
      The follow-up request offers no tools and is streamed. */
  lemma TurnToolCalls(history: seq<Message>, env: TurnEnv)
    requires env.line.Some? && !IsQuit(env.line.value)
    requires env.reply.Some? && env.reply.value.toolCalls != []
    requires TurnStatus(env) == Continued
    ensures var r := TurnSpec(history, env);
            var calls := env.reply.value.toolCalls;
            |r.appended| == 2 + |calls| + 1 &&
            r.appended[1] == AssistantToolCalls(calls) &&
            (forall k :: 0 <= k < |calls| ==>
               Dispatch(calls[k], env.outcome(k)).Some? &&
               r.appended[2 + k] == ToolMessage(Dispatch(calls[k], env.outcome(k)).value.0, calls[k].id)) &&
            r.appended[|r.appended| - 1] == AssistantReply(Some(Concat(Deltas(env.stream.chunks)))) &&
            |r.requests| == 2 &&
            r.requests[1] == Request(history + r.appended[..|r.appended| - 1], [], true)
  {
    var calls := env.reply.value.toolCalls;
    var user := UserMessage(Strip(env.line.value));
    assert TurnSpec(history, env) == ToolTurn(history, user, calls, env);
    ToolTurnShape(history, user, calls, env);
  }

  lemma ToolTurnShape(history: seq<Message>, user: Message, calls: seq<ToolCall>, env: TurnEnv)
    requires DispatchAll(calls, env.outcome).completed && !env.stream.failed
    ensures var r := ToolTurn(history, user, calls, env);
            |r.appended| == 2 + |calls| + 1 &&
            r.appended[1] == AssistantToolCalls(calls) &&
            (forall k :: 0 <= k < |calls| ==>
               Dispatch(calls[k], env.outcome(k)).Some? &&
               r.appended[2 + k] == ToolMessage(Dispatch(calls[k], env.outcome(k)).value.0, calls[k].id)) &&
            r.appended[|r.appended| - 1] == AssistantReply(Some(Concat(Deltas(env.stream.chunks)))) &&
            |r.requests| == 2 &&
            r.requests[1] == Request(history + r.appended[..|r.appended| - 1], [], true)
  {
    var batch := DispatchAll(calls, env.outcome);
    DispatchAllCount(calls, env.outcome);
    var sofar := [user, AssistantToolCalls(calls)] + batch.messages;
    var appended := sofar + [AssistantReply(Some(Concat(Deltas(env.stream.chunks))))];
    assert ToolTurn(history, user, calls, env).appended == appended;
    assert appended[..|appended| - 1] == sofar;
    forall k | 0 <= k < |calls|
      ensures Dispatch(calls[k], env.outcome(k)).Some?
      ensures appended[2 + k] == ToolMessage(Dispatch(calls[k], env.outcome(k)).value.0, calls[k].id)
    {
      DispatchAllAt(calls, env.outcome, k);
      assert appended[2 + k] == batch.messages[k];
    }
  }

  /** A command is run during a turn only for a shell call of the model's
      reply whose confirmation was given. */
  lemma TurnRanConfirmed(history: seq<Message>, env: TurnEnv, command: string)
    requires Ran(command) in TurnSpec(history, env).invoked
    ensures env.reply.Some?
    ensures exists k :: 0 <= k < |env.reply.value.toolCalls| &&
              env.reply.value.toolCalls[k].call.name == ShellName &&
              Confirmed(env.outcome(k).answer)
  {
    DispatchAllRan(env.reply.value.toolCalls, env.outcome, command);
  }

  // ---------------------------------------------------------------------
  // The session

  datatype SessionResult = SessionResult(transcript: seq<Message>, requests: seq<Request>,
                                         invoked: seq<Invocation>, exitCode: int)

  /** The loop from transcript `history` over the turns `envs`; running out
      of input is the `EOFError` that ends the program with status 1. */
  function Session(history: seq<Message>, envs: seq<TurnEnv>): (s: SessionResult)
    ensures s.exitCode == 0 || s.exitCode == 1
    decreases |envs|
  {
    if envs == [] then SessionResult(history, [], [], 1)
    else
      var r := TurnSpec(history, envs[0]);
      var h := history + r.appended;
      match r.status
      case Quit => SessionResult(h, r.requests, r.invoked, 0)
      case Failed => SessionResult(h, r.requests, r.invoked, 1)
      case Continued =>
        var rest := Session(h, envs[1..]);
        SessionResult(rest.transcript, r.requests + rest.requests, r.invoked + rest.invoked, rest.exitCode)
  }

  /** The transcript only grows: every session keeps what was there. */
  lemma {:induction false} SessionExtends(history: seq<Message>, envs: seq<TurnEnv>)
    ensures var t := Session(history, envs).transcript;
            |history| <= |t| && t[..|history|] == history
    decreases |envs|
  {
    if envs != [] {
      var r := TurnSpec(history, envs[0]);
      var h := history + r.appended;
      if r.status == Continued {
        SessionExtends(h, envs[1..]);
        var t := Session(h, envs[1..]).transcript;
        assert t[..|history|] == t[..|h|][..|history|];
      }
    }
  }

  /** The program exits with status 0 exactly when some turn quits and every
      turn before it went through. */
  lemma {:induction false} SessionExitCode(history: seq<Message>, envs: seq<TurnEnv>)
    ensures Session(history, envs).exitCode == 0 <==>
              exists j :: 0 <= j < |envs| && TurnStatus(envs[j]) == Quit &&
                          forall i :: 0 <= i < j ==> TurnStatus(envs[i]) == Continued
    decreases |envs|
  {
    if envs != [] {
      var r := TurnSpec(history, envs[0]);
      TurnStatusOf(history, envs[0]);
      var h := history + r.appended;
      var tail := envs[1..];
      if r.status == Continued {
        SessionExitCode(h, tail);
        if Session(history, envs).exitCode == 0 {
          var j :| 0 <= j < |tail| && TurnStatus(tail[j]) == Quit &&
                   forall i :: 0 <= i < j ==> TurnStatus(tail[i]) == Continued;
          assert TurnStatus(envs[j + 1]) == Quit;
          assert forall i :: 0 <= i < j + 1 ==> TurnStatus(envs[i]) == Continued by {
            forall i | 0 <= i < j + 1 ensures TurnStatus(envs[i]) == Continued {
              if i > 0 { assert envs[i] == tail[i - 1]; }
            }
          }
        }
        if exists j :: 0 <= j < |envs| && TurnStatus(envs[j]) == Quit &&
                       forall i :: 0 <= i < j ==> TurnStatus(envs[i]) == Continued {
          var j :| 0 <= j < |envs| && TurnStatus(envs[j]) == Quit &&
                   forall i :: 0 <= i < j ==> TurnStatus(envs[i]) == Continued;
          assert j > 0;
          assert TurnStatus(tail[j - 1]) == Quit;
          assert forall i :: 0 <= i < j - 1 ==> TurnStatus(tail[i]) == Continued by {
            forall i | 0 <= i < j - 1 ensures TurnStatus(tail[i]) == Continued {
              assert tail[i] == envs[i + 1];
            }
          }
        }
      }
    }
  }

  // ---------------------------------------------------------------------
  // The imperative loop

  /** The state of `chat_loop`: the `messages` list it appends to. */
  class ChatSession {
    var messages: seq<Message>

    constructor ()
      ensures messages == [SystemMessage(SystemPrompt)]
    {
      messages := [SystemMessage(SystemPrompt)];
    }

    /** One pass of `while True`: appends to `messages` in place exactly as
        `TurnSpec` says, and reports the requests it sent, the tools it
        invoked and how the pass ended. */
    method Turn(env: TurnEnv) returns (status: Status, requests: seq<Request>, invoked: seq<Invocation>)
      modifies this
      ensures var r := TurnSpec(old(messages), env);
              messages == old(messages) + r.appended && status == r.status &&
              requests == r.requests && invoked == r.invoked
    {
      requests, invoked := [], [];
      if env.line.None? {
        return Failed, requests, invoked;
      }
      var input := Strip(env.line.value);
      if Lower(input) == "quit" {
        return Quit, requests, invoked;
      }
      messages := messages + [UserMessage(input)];
      requests := [Request(messages, [WikiTool, ShellTool], false)];
      if env.reply.None? {
        return Failed, requests, invoked;
      }
      var reply := env.reply.value;
      if reply.toolCalls == [] {
        messages := messages + [AssistantReply(reply.content)];
        return Continued, requests, invoked;
      }
      var calls := reply.toolCalls;
      ghost var history := old(messages);
      ghost var user := UserMessage(input);
      assert TurnSpec(history, env) == ToolTurn(history, user, calls, env);
      messages := messages + [AssistantToolCalls(calls)];
      var completed;
      completed, invoked := DispatchCalls(calls, env.outcome);
      ghost var sofar := [user, AssistantToolCalls(calls)] + DispatchAll(calls, env.outcome).messages;
      assert messages == history + sofar;
      if !completed {
        return Failed, requests, invoked;
      }
      requests := requests + [Request(messages, [], true)];
      if env.stream.failed {
        return Failed, requests, invoked;
      }
      var collected := CollectStream(env.stream.chunks);
      messages := messages + [AssistantReply(Some(collected))];
      assert messages == history + (sofar + [AssistantReply(Some(collected))]);
      status := Continued;
    }

    /** `for tool_call in tool_calls`: appends one tool message per call
        until a pass raises. */
    method DispatchCalls(calls: seq<ToolCall>, outcome: nat -> CallEnv) returns (completed: bool, invoked: seq<Invocation>)
      modifies this
      ensures var b := DispatchAll(calls, outcome);
              messages == old(messages) + b.messages && completed == b.completed && invoked == b.invoked
    {
      invoked := [];
      var i := 0;
      while i < |calls|
        invariant 0 <= i <= |calls|
        invariant DispatchAll(calls[..i], outcome).completed
        invariant messages == old(messages) + DispatchAll(calls[..i], outcome).messages
        invariant invoked == DispatchAll(calls[..i], outcome).invoked
      {
        assert calls[..i + 1][..i] == calls[..i];
        var d := Dispatch(calls[i], outcome(i));
        if d.None? {
          DispatchAllStops(calls, outcome, i);
          return false, invoked;
        }
        messages := messages + [ToolMessage(d.value.0, calls[i].id)];
        invoked := invoked + d.value.1;
        i := i + 1;
      }
      assert calls[..|calls|] == calls;
      completed := true;
    }

    /** `while True` over the turns until one quits or raises, or the input
        runs out. */
    method Run(envs: seq<TurnEnv>) returns (exitCode: int, requests: seq<Request>, invoked: seq<Invocation>)
      modifies this
      ensures var s := Session(old(messages), envs);
              messages == s.transcript && exitCode == s.exitCode &&
              requests == s.requests && invoked == s.invoked
    {
      requests, invoked := [], [];
      var i := 0;
      while i < |envs|
        invariant 0 <= i <= |envs|
        invariant var s := Session(messages, envs[i..]);
                  var whole := Session(old(messages), envs);
                  s.transcript == whole.transcript && s.exitCode == whole.exitCode &&
                  requests + s.requests == whole.requests && invoked + s.invoked == whole.invoked
      {
        ghost var before := messages;
        var status, reqs, inv := Turn(envs[i]);
        ghost var rest := envs[i..];
        assert rest[0] == envs[i] && rest[1..] == envs[i + 1..];
        if status != Continued {
          requests, invoked := requests + reqs, invoked + inv;
          return if status == Quit then 0 else 1, requests, invoked;
        }
        assert requests + reqs + Session(messages, envs[i + 1..]).requests
            == requests + (reqs + Session(messages, envs[i + 1..]).requests);
        assert invoked + inv + Session(messages, envs[i + 1..]).invoked
            == invoked + (inv + Session(messages, envs[i + 1..]).invoked);
        requests, invoked := requests + reqs, invoked + inv;
        i := i + 1;
      }
      assert requests + [] == requests && invoked + [] == invoked;
      exitCode := 1;
    }
  }

  /** `chat_loop` from its initial transcript, the system prompt alone. */
  method ChatLoop(envs: seq<TurnEnv>) returns (exitCode: int)
    ensures exitCode == Session([SystemMessage(SystemPrompt)], envs).exitCode
    ensures exitCode == 0 <==>
              exists j :: 0 <= j < |envs| && TurnStatus(envs[j]) == Quit &&
                          forall i :: 0 <= i < j ==> TurnStatus(envs[i]) == Continued
  {
    var session := new ChatSession();
    var requests, invoked;
    exitCode, requests, invoked := session.Run(envs);
    SessionExitCode([SystemMessage(SystemPrompt)], envs);
  }
}
