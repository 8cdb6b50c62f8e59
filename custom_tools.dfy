/** `CustomTools`, the concrete tool class: the user summary it builds, its
    copy of the shell confirmation gate, and the specs that
    `ToolBase.get_tool_spec` derives from its methods.

    The bodies of `calculator` (Python's `eval`), `get_current_time` (the
    wall clock) and `get_current_weather` (an HTTP request) are not
    modelled; their signatures and docstrings are, since the specs come from
    them. */
module CustomTools {
  import opened Wrappers
  import opened Text
  import Shell
  import opened ToolBase

  // ---------------------------------------------------------------------
  // get_user_name_and_email_and_id

  /** The "User: <name>" segment, present iff the key is. */
  function NamePart(user: map<string, string>): string {
    if "name" in user then "User: " + user["name"] else ""
  }

  /** The " (ID: <id>)" segment, present iff the key is. */
  function IdPart(user: map<string, string>): string {
    if "id" in user then " (ID: " + user["id"] + ")" else ""
  }

  /** The " (Email: <email>)" segment, present iff the key is. */
  function EmailPart(user: map<string, string>): string {
    if "email" in user then " (Email: " + user["email"] + ")" else ""
  }

  const UnknownUser := "User: Unknown"

  /** The summary of the `__user__` object: its segments in the fixed order
      name, id, email, or "User: Unknown" when they are all empty. */
  function UserSummary(user: map<string, string>): (r: string)
    ensures r != []
  {
    var parts := NamePart(user) + IdPart(user) + EmailPart(user);
    if parts == "" then UnknownUser else parts
  }

  /** The summary is "User: Unknown" exactly when the object has none of
      the three keys, or has only a name and that name is "Unknown". */
  lemma UserSummaryUnknown(user: map<string, string>)
    ensures UserSummary(user) == UnknownUser <==>
              ("name" !in user && "id" !in user && "email" !in user) ||
              ("name" in user && user["name"] == "Unknown" && "id" !in user && "email" !in user)
  {
    if "id" in user || "email" in user {
      ClosingParen(user);
    } else if "name" in user {
      assert UserSummary(user) == "User: " + user["name"] by {
        assert IdPart(user) + EmailPart(user) == [];
      }
      assert UnknownUser == "User: " + "Unknown";
      PrefixCancel("User: ", user["name"], "Unknown");
    }
  }

  /** With an id or an email the summary ends in ")", which "User: Unknown"
      does not. */
  lemma ClosingParen(user: map<string, string>)
    requires "id" in user || "email" in user
    ensures UserSummary(user) != UnknownUser
  {
    var tail := IdPart(user) + EmailPart(user);
    assert tail != [] && tail[|tail| - 1] == ')';
    var r := NamePart(user) + tail;
    assert UserSummary(user) == r by {
      assert NamePart(user) + IdPart(user) + EmailPart(user) == r;
    }
    assert r[|r| - 1] == ')';
    assert UnknownUser[|UnknownUser| - 1] == 'n';
  }

  lemma PrefixCancel(a: string, x: string, y: string)
    ensures a + x == a + y <==> x == y
  {
    if a + x == a + y {
      assert x == (a + x)[|a|..] && y == (a + y)[|a|..];
    }
  }

  /** A summary that is not the fallback is made of the segments of the
      keys present and nothing else, in the order name, id, email: the name
      segment opens it, the email segment closes it, and the id segment
      comes between. */
  lemma UserSummarySegments(user: map<string, string>)
    requires "name" in user || "id" in user || "email" in user
    ensures |UserSummary(user)| == |NamePart(user)| + |IdPart(user)| + |EmailPart(user)|
    ensures var r := UserSummary(user);
            ("name" in user ==> StartsWith(r, "User: " + user["name"])) &&
            ("name" !in user ==> r[0] == ' ') &&
            ("id" in user ==> r[|NamePart(user)|..|NamePart(user)| + |IdPart(user)|] == " (ID: " + user["id"] + ")") &&
            ("email" in user ==> r[|r| - |EmailPart(user)|..] == " (Email: " + user["email"] + ")")
  {
    var r := UserSummary(user);
    var n, i, e := NamePart(user), IdPart(user), EmailPart(user);
    assert n + i + e != [];
    assert r == n + i + e;
    assert r[..|n|] == n;
    assert r[|n|..|n| + |i|] == i;
    assert r[|r| - |e|..] == e;
  }

  /** The method as written: `result` grows by `+=` one segment at a time. */
  method GetUserNameAndEmailAndId(user: map<string, string>) returns (result: string)
    ensures result == UserSummary(user)
  {
    result := "";
    if "name" in user {
      result := result + "User: " + user["name"];
    }
    assert result == NamePart(user);
    if "id" in user {
      result := result + " (ID: " + user["id"] + ")";
    }
    assert result == NamePart(user) + IdPart(user);
    if "email" in user {
      result := result + " (Email: " + user["email"] + ")";
    }
    assert result == NamePart(user) + IdPart(user) + EmailPart(user);
    if result == "" {
      result := UnknownUser;
    }
  }

  // ---------------------------------------------------------------------
  // run_shell_command

  /** `CustomTools.run_shell_command` repeats the gate of the chat client's
      `run_shell_command`: the command runs only on a confirmed answer. */
  function RunShellCommand(answer: string, exec: Shell.ExecOutcome): (r: (Shell.ToolResult, bool))
    ensures r.1 <==> Shell.Confirmed(answer)
    ensures !r.1 ==> r.0 == Shell.Aborted(Shell.AbortMessage)
  {
    Shell.RunShellCommand(answer, exec)
  }

  // ---------------------------------------------------------------------
  // The methods as reflection shows them
  //
  // Each docstring is the join of its source lines. Lines longer than about
  // thirty characters are written as concatenations of shorter literals: the
  // text is the same, and facts about a literal (its characters, whether it
  // holds a line break) are cheap for the verifier only when it is short.

  const ClassName := "CustomTools"

  /** The indentation of the docstring lines; the closing quotes sit on a
      line of it alone. */
  const Indent := "        "

  /** The docstring line documenting parameter `name`. */
  function ParamLine(name: string, text: string): string {
    ParamTag + " " + name + ": " + text
  }

  const CalculatorLines := [
    "",
    Indent + "Calculate the result of an equation.",
    Indent + ParamLine("equation", "The equation to calculate."),
    Indent]

  const Calculator := Attr("calculator", Some(Method(
    ClassName + "." + "calculator", [Param("equation", StrType, false)], JoinLines(CalculatorLines))))

  const CalculatorSpec := ToolSpec(
    "calculator",
    "Calculate the result of an equation.",
    Parameters("object", [("equation", Prop("string", Some("The equation to calculate.")))], Some(["equation"])),
    "calculator")

  /** The docstring's lines are the source lines. */
  lemma Lines(lines: seq<string>)
    requires lines != [] && lines[|lines| - 1] == Indent
    requires forall k :: 0 <= k < |lines| ==> '\n' !in lines[k]
    ensures SplitLines(JoinLines(lines)) == lines
  {
    SplitJoin(lines);
  }

  /** An indented line strips to its text. */
  lemma Stripped(text: string)
    requires text != [] && !IsSpace(text[0]) && !IsSpace(text[|text| - 1])
    ensures Strip(Indent + text) == text
  {
    StripIndented(Indent, text, []);
    assert Indent + text + [] == Indent + text;
  }

  /** A line that does not open with ":param" documents nothing. */
  lemma Plain(text: string)
    requires text != [] && !IsSpace(text[0]) && !IsSpace(text[|text| - 1])
    requires |text| >= 2 && (text[0] != ':' || text[1] != 'p')
    ensures MatchParam(Strip(Indent + text)).None?
  {
    Stripped(text);
    assert !StartsWith(text, ParamTag) by {
      if |ParamTag| <= |text| {
        assert text[..|ParamTag|][0] == text[0] && text[..|ParamTag|][1] == text[1];
      }
    }
  }

  lemma BlankLines()
    ensures Strip("") == [] && Strip(Indent) == []
    ensures MatchParam(Strip("")).None? && MatchParam(Strip(Indent)).None?
  {
    StripBlank(Indent);
  }

  /** An indented `:param` line documents its name with its text. */
  lemma Documented(name: string, text: string)
    requires name != [] && AllWord(name)
    requires text != [] && !IsSpace(text[0]) && !IsSpace(text[|text| - 1]) && '\n' !in text
    ensures MatchParam(Strip(Indent + ParamLine(name, text))) == Some((name, text))
  {
    var line := ParamLine(name, text);
    assert line == ParamTag + " " + name + ":" + " " + text;
    Stripped(line);
    MatchParamComplete(" ", name, " ", text);
  }

  /** The description is the first line of text after the opening line. */
  lemma Described(lines: seq<string>, text: string)
    requires |lines| >= 2 && lines[0] == [] && lines[1] == Indent + text
    requires text != [] && !IsSpace(text[0]) && !IsSpace(text[|text| - 1])
    ensures Description(lines) == text
  {
    BlankLines();
    Stripped(text);
    assert lines[1..][0] == lines[1];
  }

  lemma Public(name: string)
    requires name != [] && name[0] != '_'
    ensures !StartsWith(name, "_")
  {
    assert name[..1][0] == name[0];
  }

  /** A method defined on the class is a tool. */
  lemma Defined(name: string, params: seq<Param>, doc: string)
    requires name != [] && name[0] != '_'
    ensures IsTool(ClassName, Attr(name, Some(Method(ClassName + "." + name, params, doc))))
  {
    Public(name);
    HeadOf(ClassName, '.', name);
  }

  /** The schema of a signature with one parameter other than `self`. */
  lemma SchemaOne(p: Param, docs: map<string, string>)
    requires Listed(p)
    ensures Schema([p], docs) ==
              Parameters("object", [(p.name, PropOf(p, docs))], if p.hasDefault then None else Some([p.name]))
  {
    assert [p][..0] == [];
    assert Properties([p], docs) == [(p.name, PropOf(p, docs))];
    assert Required([p]) == if p.hasDefault then [] else [p.name];
  }

  lemma CalculatorDocs()
    ensures ParamDocs(CalculatorLines) == map["equation" := "The equation to calculate."]
  {
    var lines := CalculatorLines;
    assert MatchParam(Strip(lines[0])).None? && MatchParam(Strip(lines[3])).None? by {
      BlankLines();
    }
    assert MatchParam(Strip(lines[1])).None? by {
      Plain("Calculate the result of an equation.");
    }
    assert MatchParam(Strip(lines[2])) == Some(("equation", "The equation to calculate.")) by {
      EquationLine();
    }
    ParamDocsOne(lines, 2, "equation", "The equation to calculate.");
  }

  lemma EquationLine()
    ensures MatchParam(Strip(Indent + ParamLine("equation", "The equation to calculate."))) ==
            Some(("equation", "The equation to calculate."))
  {
    Documented("equation", "The equation to calculate.");
  }

  /** A spec is assembled from the docstring's lines, its description and
      the schema. */
  lemma SpecFrom(attr: Attr, lines: seq<string>, schema: Parameters, description: string)
    requires attr.callable.Some? && SplitLines(attr.callable.value.doc) == lines
    requires Description(lines) == description
    requires Schema(attr.callable.value.params, ParamDocs(lines)) == schema
    ensures SpecOf(attr) == ToolSpec(attr.name, description, schema, attr.name)
  {
  }

  lemma CalculatorSchema()
    ensures Schema(Calculator.callable.value.params, ParamDocs(CalculatorLines)) == CalculatorSpec.parameters
  {
    CalculatorDocs();
    SchemaOne(Param("equation", StrType, false), map["equation" := "The equation to calculate."]);
  }

  lemma CalculatorNoBreaks()
    ensures forall k :: 0 <= k < |CalculatorLines| ==> '\n' !in CalculatorLines[k]
  {
    var lines := CalculatorLines;
    assert '\n' !in lines[1] && '\n' !in lines[2];
  }

  lemma CalculatorLinesOf()
    ensures SplitLines(Calculator.callable.value.doc) == CalculatorLines
  {
    CalculatorNoBreaks();
    Lines(CalculatorLines);
  }

  lemma CalculatorDescription()
    ensures Description(CalculatorLines) == CalculatorSpec.description
  {
    Described(CalculatorLines, CalculatorSpec.description);
  }

  lemma CalculatorIsTool()
    ensures IsTool(ClassName, Calculator)
  {
    Defined("calculator", Calculator.callable.value.params, Calculator.callable.value.doc);
  }

  lemma CalculatorSpecOf()
    ensures SpecOf(Calculator) == CalculatorSpec
  {
    CalculatorLinesOf();
    CalculatorDescription();
    CalculatorSchema();
    SpecFrom(Calculator, CalculatorLines, CalculatorSpec.parameters, CalculatorSpec.description);
  }

  const CurrentTimeSummary := "Get the current time" + " in a human-readable format."
  const CurrentTimeLine2 := ":return: The current time."

  const CurrentTimeLines := [
    "",
    Indent + CurrentTimeSummary,
    Indent + CurrentTimeLine2,
    Indent]

  const CurrentTime := Attr("get_current_time", Some(Method(
    ClassName + "." + "get_current_time", [], JoinLines(CurrentTimeLines))))

  const CurrentTimeSpec := ToolSpec("get_current_time", CurrentTimeSummary,
    Parameters("object", [], None),
    "get_current_time")

  lemma CurrentTimeBlankLines()
    ensures MatchParam(Strip(CurrentTimeLines[0])).None? && MatchParam(Strip(CurrentTimeLines[3])).None?
  {
    BlankLines();
  }

  lemma CurrentTimePlainLine1()
    ensures MatchParam(Strip(CurrentTimeLines[1])).None?
  {
    Plain(CurrentTimeSummary);
  }

  lemma CurrentTimePlainLine2()
    ensures MatchParam(Strip(CurrentTimeLines[2])).None?
  {
    Plain(CurrentTimeLine2);
  }

  lemma CurrentTimeDocs()
    ensures ParamDocs(CurrentTimeLines) == map[]
  {
    CurrentTimeBlankLines();
    CurrentTimePlainLine1();
    CurrentTimePlainLine2();
    ParamDocsNone(CurrentTimeLines);
  }

  lemma CurrentTimeSchema()
    ensures Schema(CurrentTime.callable.value.params, ParamDocs(CurrentTimeLines)) == CurrentTimeSpec.parameters
  {
    CurrentTimeDocs();
  }

  lemma CurrentTimeNoBreaks()
    ensures forall k :: 0 <= k < |CurrentTimeLines| ==> '\n' !in CurrentTimeLines[k]
  {
    var lines := CurrentTimeLines;
    assert '\n' !in lines[1] && '\n' !in lines[2];
  }

  lemma CurrentTimeLinesOf()
    ensures SplitLines(CurrentTime.callable.value.doc) == CurrentTimeLines
  {
    CurrentTimeNoBreaks();
    Lines(CurrentTimeLines);
  }

  lemma CurrentTimeDescription()
    ensures Description(CurrentTimeLines) == CurrentTimeSpec.description
  {
    Described(CurrentTimeLines, CurrentTimeSummary);
  }

  lemma CurrentTimeIsTool()
    ensures IsTool(ClassName, CurrentTime)
  {
    Defined("get_current_time", CurrentTime.callable.value.params, CurrentTime.callable.value.doc);
  }

  lemma CurrentTimeSpecOf()
    ensures SpecOf(CurrentTime) == CurrentTimeSpec
  {
    CurrentTimeLinesOf();
    CurrentTimeDescription();
    CurrentTimeSchema();
    SpecFrom(CurrentTime, CurrentTimeLines, CurrentTimeSpec.parameters, CurrentTimeSpec.description);
  }

  const CurrentWeatherSummary := "Get the current weather" + " for a given city."
  const CurrentWeatherParamText := "The name of the city" + " to get the weather for."
  const CurrentWeatherLine3 := ":return: The current weather" + " information or an" + " error message."

  const CurrentWeatherLines := [
    "",
    Indent + CurrentWeatherSummary,
    Indent + ParamLine("city", CurrentWeatherParamText),
    Indent + CurrentWeatherLine3,
    Indent]

  const CurrentWeather := Attr("get_current_weather", Some(Method(
    ClassName + "." + "get_current_weather", [Param("city", StrType, false)], JoinLines(CurrentWeatherLines))))

  const CurrentWeatherSpec := ToolSpec("get_current_weather", CurrentWeatherSummary,
    Parameters("object", [("city", Prop("string", Some(CurrentWeatherParamText)))], Some(["city"])),
    "get_current_weather")

  lemma CurrentWeatherBlankLines()
    ensures MatchParam(Strip(CurrentWeatherLines[0])).None? && MatchParam(Strip(CurrentWeatherLines[4])).None?
  {
    BlankLines();
  }

  lemma CurrentWeatherPlainLine1()
    ensures MatchParam(Strip(CurrentWeatherLines[1])).None?
  {
    Plain(CurrentWeatherSummary);
  }

  lemma CurrentWeatherPlainLine3()
    ensures MatchParam(Strip(CurrentWeatherLines[3])).None?
  {
    Plain(CurrentWeatherLine3);
  }

  lemma CurrentWeatherParamLine()
    ensures MatchParam(Strip(CurrentWeatherLines[2])) == Some(("city", CurrentWeatherParamText))
  {
    Documented("city", CurrentWeatherParamText);
  }

  lemma CurrentWeatherDocs()
    ensures ParamDocs(CurrentWeatherLines) == map["city" := CurrentWeatherParamText]
  {
    CurrentWeatherBlankLines();
    CurrentWeatherPlainLine1();
    CurrentWeatherPlainLine3();
    CurrentWeatherParamLine();
    ParamDocsOne(CurrentWeatherLines, 2, "city", CurrentWeatherParamText);
  }

  lemma CurrentWeatherSchema()
    ensures Schema(CurrentWeather.callable.value.params, ParamDocs(CurrentWeatherLines)) == CurrentWeatherSpec.parameters
  {
    CurrentWeatherDocs();
    SchemaOne(Param("city", StrType, false), map["city" := CurrentWeatherParamText]);
  }

  lemma CurrentWeatherNoBreaks()
    ensures forall k :: 0 <= k < |CurrentWeatherLines| ==> '\n' !in CurrentWeatherLines[k]
  {
    var lines := CurrentWeatherLines;
    assert '\n' !in lines[1] && '\n' !in lines[2] && '\n' !in lines[3];
  }

  lemma CurrentWeatherLinesOf()
    ensures SplitLines(CurrentWeather.callable.value.doc) == CurrentWeatherLines
  {
    CurrentWeatherNoBreaks();
    Lines(CurrentWeatherLines);
  }

  lemma CurrentWeatherDescription()
    ensures Description(CurrentWeatherLines) == CurrentWeatherSpec.description
  {
    Described(CurrentWeatherLines, CurrentWeatherSummary);
  }

  lemma CurrentWeatherIsTool()
    ensures IsTool(ClassName, CurrentWeather)
  {
    Defined("get_current_weather", CurrentWeather.callable.value.params, CurrentWeather.callable.value.doc);
  }

  lemma CurrentWeatherSpecOf()
    ensures SpecOf(CurrentWeather) == CurrentWeatherSpec
  {
    CurrentWeatherLinesOf();
    CurrentWeatherDescription();
    CurrentWeatherSchema();
    SpecFrom(CurrentWeather, CurrentWeatherLines, CurrentWeatherSpec.parameters, CurrentWeatherSpec.description);
  }

  const UserInfoSummary := "Get the user name, Email and ID" + " from the user object."

  const UserInfoLines := [
    "",
    Indent + UserInfoSummary,
    Indent]

  const UserInfo := Attr("get_user_name_and_email_and_id", Some(Method(
    ClassName + "." + "get_user_name_and_email_and_id", [Param("__user__", DictType, true)], JoinLines(UserInfoLines))))

  const UserInfoSpec := ToolSpec("get_user_name_and_email_and_id", UserInfoSummary,
    Parameters("object", [("__user__", Prop("object", None))], None),
    "get_user_name_and_email_and_id")

  lemma UserInfoBlankLines()
    ensures MatchParam(Strip(UserInfoLines[0])).None? && MatchParam(Strip(UserInfoLines[2])).None?
  {
    BlankLines();
  }

  lemma UserInfoPlainLine1()
    ensures MatchParam(Strip(UserInfoLines[1])).None?
  {
    Plain(UserInfoSummary);
  }

  lemma UserInfoDocs()
    ensures ParamDocs(UserInfoLines) == map[]
  {
    UserInfoBlankLines();
    UserInfoPlainLine1();
    ParamDocsNone(UserInfoLines);
  }

  lemma UserInfoSchema()
    ensures Schema(UserInfo.callable.value.params, ParamDocs(UserInfoLines)) == UserInfoSpec.parameters
  {
    UserInfoDocs();
    SchemaOne(Param("__user__", DictType, true), map[]);
  }

  lemma UserInfoNoBreaks()
    ensures forall k :: 0 <= k < |UserInfoLines| ==> '\n' !in UserInfoLines[k]
  {
    var lines := UserInfoLines;
    assert '\n' !in lines[1];
  }

  lemma UserInfoLinesOf()
    ensures SplitLines(UserInfo.callable.value.doc) == UserInfoLines
  {
    UserInfoNoBreaks();
    Lines(UserInfoLines);
  }

  lemma UserInfoDescription()
    ensures Description(UserInfoLines) == UserInfoSpec.description
  {
    Described(UserInfoLines, UserInfoSummary);
  }

  lemma UserInfoIsTool()
    ensures IsTool(ClassName, UserInfo)
  {
    Defined("get_user_name_and_email_and_id", UserInfo.callable.value.params, UserInfo.callable.value.doc);
  }

  lemma UserInfoSpecOf()
    ensures SpecOf(UserInfo) == UserInfoSpec
  {
    UserInfoLinesOf();
    UserInfoDescription();
    UserInfoSchema();
    SpecFrom(UserInfo, UserInfoLines, UserInfoSpec.parameters, UserInfoSpec.description);
  }

  const RunShellSummary := "Execute a shell command" + " on the local machine" + " after obtaining" + " user confirmation."
  const RunShellParamText := "Shell command to be executed."
  const RunShellLine4 := ":return: A dictionary with keys" + " \"status\" (and if successful," + " \"stdout\", \"stderr\", and" + " \"returncode\")."

  const RunShellLines := [
    "",
    Indent + RunShellSummary,
    Indent,
    Indent + ParamLine("command", RunShellParamText),
    Indent + RunShellLine4,
    Indent]

  const RunShell := Attr("run_shell_command", Some(Method(
    ClassName + "." + "run_shell_command", [Param("command", StrType, false)], JoinLines(RunShellLines))))

  const RunShellSpec := ToolSpec("run_shell_command", RunShellSummary,
    Parameters("object", [("command", Prop("string", Some(RunShellParamText)))], Some(["command"])),
    "run_shell_command")

  lemma RunShellBlankLines()
    ensures MatchParam(Strip(RunShellLines[0])).None? && MatchParam(Strip(RunShellLines[2])).None? && MatchParam(Strip(RunShellLines[5])).None?
  {
    BlankLines();
  }

  lemma RunShellPlainLine1()
    ensures MatchParam(Strip(RunShellLines[1])).None?
  {
    Plain(RunShellSummary);
  }

  lemma RunShellPlainLine4()
    ensures MatchParam(Strip(RunShellLines[4])).None?
  {
    Plain(RunShellLine4);
  }

  lemma RunShellParamLine()
    ensures MatchParam(Strip(RunShellLines[3])) == Some(("command", RunShellParamText))
  {
    Documented("command", RunShellParamText);
  }

  lemma RunShellDocs()
    ensures ParamDocs(RunShellLines) == map["command" := RunShellParamText]
  {
    RunShellBlankLines();
    RunShellPlainLine1();
    RunShellPlainLine4();
    RunShellParamLine();
    ParamDocsOne(RunShellLines, 3, "command", RunShellParamText);
  }

  lemma RunShellSchema()
    ensures Schema(RunShell.callable.value.params, ParamDocs(RunShellLines)) == RunShellSpec.parameters
  {
    RunShellDocs();
    SchemaOne(Param("command", StrType, false), map["command" := RunShellParamText]);
  }

  lemma RunShellSummaryNoBreak()
    ensures '\n' !in RunShellSummary
  {
  }

  lemma RunShellLine4NoBreak()
    ensures '\n' !in RunShellLine4
  {
  }

  lemma RunShellNoBreaks()
    ensures forall k :: 0 <= k < |RunShellLines| ==> '\n' !in RunShellLines[k]
  {
    RunShellSummaryNoBreak();
    RunShellLine4NoBreak();
    assert '\n' !in ParamLine("command", RunShellParamText);
  }

  lemma RunShellLinesOf()
    ensures SplitLines(RunShell.callable.value.doc) == RunShellLines
  {
    RunShellNoBreaks();
    Lines(RunShellLines);
  }

  lemma RunShellDescription()
    ensures Description(RunShellLines) == RunShellSpec.description
  {
    Described(RunShellLines, RunShellSummary);
  }

  lemma RunShellIsTool()
    ensures IsTool(ClassName, RunShell)
  {
    Defined("run_shell_command", RunShell.callable.value.params, RunShell.callable.value.doc);
  }

  lemma RunShellSpecOf()
    ensures SpecOf(RunShell) == RunShellSpec
  {
    RunShellLinesOf();
    RunShellDescription();
    RunShellSchema();
    SpecFrom(RunShell, RunShellLines, RunShellSpec.parameters, RunShellSpec.description);
  }

  // ---------------------------------------------------------------------
  // The whole class

  /** `get_tool_spec` itself, inherited from `ToolBase`. */
  const InheritedGetToolSpec := Attr("get_tool_spec", Some(Method(
    "ToolBase" + "." + "get_tool_spec", [], JoinLines([
      "",
      Indent + "Returns a list of tool specifications generated from the methods of the class.",
      Indent + "Each tool specification is a dictionary with keys:",
      Indent + "  - name: the method name",
      Indent + "  - description: the first line of the method's docstring",
      Indent + "  - parameters: a JSON schema object generated from the method's parameters",
      Indent + "  - function: a reference to the method (to be used when the tool is called)",
      Indent]))))

  /** The public attributes of a `CustomTools` instance in `dir()` order
      (alphabetical); every other name `dir()` lists starts with "_". */
  const PublicAttrs := [Calculator, CurrentTime, CurrentWeather, InheritedGetToolSpec, UserInfo, RunShell]

  const CustomToolSpecs := [CalculatorSpec, CurrentTimeSpec, CurrentWeatherSpec, UserInfoSpec, RunShellSpec]

  /** The inherited `get_tool_spec` is not a tool of `CustomTools`. */
  lemma InheritedNotTool()
    ensures !IsTool(ClassName, InheritedGetToolSpec)
  {
    HeadOf("ToolBase", '.', "get_tool_spec");
    assert |"ToolBase"| != |ClassName|;
  }

  lemma DeriveSnoc(attrs: seq<Attr>, a: Attr)
    ensures DeriveSpecs(ClassName, attrs + [a]) ==
              DeriveSpecs(ClassName, attrs) + if IsTool(ClassName, a) then [SpecOf(a)] else []
  {
    assert (attrs + [a])[..|attrs|] == attrs;
  }

  lemma Prefix1()
    ensures DeriveSpecs(ClassName, [Calculator]) == [CalculatorSpec]
  {
    DeriveSnoc([], Calculator);
    assert [] + [Calculator] == [Calculator];
    CalculatorIsTool();
    CalculatorSpecOf();
  }

  lemma Prefix2()
    ensures DeriveSpecs(ClassName, [Calculator, CurrentTime]) == [CalculatorSpec, CurrentTimeSpec]
  {
    Prefix1();
    DeriveSnoc([Calculator], CurrentTime);
    assert [Calculator] + [CurrentTime] == [Calculator, CurrentTime];
    CurrentTimeIsTool();
    CurrentTimeSpecOf();
  }

  lemma Prefix3()
    ensures DeriveSpecs(ClassName, [Calculator, CurrentTime, CurrentWeather]) == [CalculatorSpec, CurrentTimeSpec, CurrentWeatherSpec]
  {
    Prefix2();
    DeriveSnoc([Calculator, CurrentTime], CurrentWeather);
    assert [Calculator, CurrentTime] + [CurrentWeather] == [Calculator, CurrentTime, CurrentWeather];
    CurrentWeatherIsTool();
    CurrentWeatherSpecOf();
  }

  lemma Prefix4()
    ensures DeriveSpecs(ClassName, [Calculator, CurrentTime, CurrentWeather, InheritedGetToolSpec]) == [CalculatorSpec, CurrentTimeSpec, CurrentWeatherSpec]
  {
    Prefix3();
    DeriveSnoc([Calculator, CurrentTime, CurrentWeather], InheritedGetToolSpec);
    assert [Calculator, CurrentTime, CurrentWeather] + [InheritedGetToolSpec] == [Calculator, CurrentTime, CurrentWeather, InheritedGetToolSpec];
    InheritedNotTool();
  }

  lemma Prefix5()
    ensures DeriveSpecs(ClassName, [Calculator, CurrentTime, CurrentWeather, InheritedGetToolSpec, UserInfo]) == [CalculatorSpec, CurrentTimeSpec, CurrentWeatherSpec, UserInfoSpec]
  {
    Prefix4();
    DeriveSnoc([Calculator, CurrentTime, CurrentWeather, InheritedGetToolSpec], UserInfo);
    assert [Calculator, CurrentTime, CurrentWeather, InheritedGetToolSpec] + [UserInfo] == [Calculator, CurrentTime, CurrentWeather, InheritedGetToolSpec, UserInfo];
    UserInfoIsTool();
    UserInfoSpecOf();
  }

  lemma Prefix6()
    ensures DeriveSpecs(ClassName, [Calculator, CurrentTime, CurrentWeather, InheritedGetToolSpec, UserInfo, RunShell]) == [CalculatorSpec, CurrentTimeSpec, CurrentWeatherSpec, UserInfoSpec, RunShellSpec]
  {
    Prefix5();
    DeriveSnoc([Calculator, CurrentTime, CurrentWeather, InheritedGetToolSpec, UserInfo], RunShell);
    assert [Calculator, CurrentTime, CurrentWeather, InheritedGetToolSpec, UserInfo] + [RunShell] == [Calculator, CurrentTime, CurrentWeather, InheritedGetToolSpec, UserInfo, RunShell];
    RunShellIsTool();
    RunShellSpecOf();
  }

  lemma PublicSpecs()
    ensures DeriveSpecs(ClassName, PublicAttrs) == CustomToolSpecs
  {
    Prefix6();
  }

  /** `get_tool_spec` on a `CustomTools` instance yields exactly the specs
      of `calculator`, `get_current_time`, `get_current_weather`,
      `get_user_name_and_email_and_id` and `run_shell_command`, in that
      order, whatever private attributes `dir()` lists before them. */
  lemma CustomToolsSpecs(private: seq<Attr>)
    requires forall i :: 0 <= i < |private| ==> StartsWith(private[i].name, "_")
    ensures DeriveSpecs(ClassName, private + PublicAttrs) == CustomToolSpecs
  {
    DeriveSpecsAppend(ClassName, private, PublicAttrs);
    DeriveSpecsPrivate(ClassName, private);
    PublicSpecs();
    assert [] + CustomToolSpecs == CustomToolSpecs;
  }

  /** `CustomTools().get_tool_spec()`, run step by step. */
  method GetCustomToolSpecs(private: seq<Attr>) returns (specs: seq<ToolSpec>)
    requires forall i :: 0 <= i < |private| ==> StartsWith(private[i].name, "_")
    ensures specs == CustomToolSpecs
  {
    specs := GetToolSpec(ClassName, private + PublicAttrs);
    CustomToolsSpecs(private);
  }
}
