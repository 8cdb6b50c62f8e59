/** The results the chat client's tools hand back, and the confirmation gate
    in front of `run_shell_command`: the command runs only when the typed
    answer, stripped and lower-cased, is "yes" or "y".

    The terminal prompt and `subprocess.run` are not modelled: the typed
    answer and what running the command gives are parameters. */
module Shell {
  import opened Text

  /** The dictionaries the tools return. `Article` is a successful Wikipedia
      lookup, `ShellOutput` a command that ran (with status "success"),
      `Aborted` a refused confirmation and `Error` any failure. */
  datatype ToolResult =
    | Article(title: string, content: string)
    | ShellOutput(stdout: string, stderr: string, returncode: int)
    | Aborted(message: string)
    | Error(message: string)

  /** The `"status"` field of a result. */
  function ResultStatus(r: ToolResult): (s: string)
    ensures s in {"success", "aborted", "error"}
    ensures s == "success" <==> (r.Article? || r.ShellOutput?)
  {
    match r
    case Article(_, _) => "success"
    case ShellOutput(_, _, _) => "success"
    case Aborted(_) => "aborted"
    case Error(_) => "error"
  }

  /** What `subprocess.run(command, shell=True, capture_output=True,
      text=True)` gives: the completed process, or the message of the
      exception it raised. */
  datatype ExecOutcome =
    | Completed(stdout: string, stderr: string, returncode: int)
    | Raised(message: string)

  const AbortMessage := "Command execution aborted by user."

  /** `input(...).strip().lower() in ["yes", "y"]` */
  predicate Confirmed(answer: string) {
    Lower(Strip(answer)) in ["yes", "y"]
  }

  /** The result of `run_shell_command` for the typed answer and, should the
      command run, its outcome; the flag tells whether the command ran. */
  function RunShellCommand(answer: string, exec: ExecOutcome): (r: (ToolResult, bool))
    ensures r.1 <==> Confirmed(answer)
    ensures !r.1 ==> r.0 == Aborted(AbortMessage)
    ensures r.1 && exec.Completed? ==> r.0 == ShellOutput(exec.stdout, exec.stderr, exec.returncode)
    ensures r.1 && exec.Raised? ==> r.0 == Error(exec.message)
    ensures ResultStatus(r.0) == "aborted" <==> !r.1
  {
    if !Confirmed(answer) then (Aborted(AbortMessage), false)
    else match exec
      case Completed(out, err, code) => (ShellOutput(out, err, code), true)
      case Raised(msg) => (Error(msg), true)
  }

  /** Whitespace typed around the answer never changes the decision. */
  lemma ConfirmedPadded(ws: string, answer: string, ws2: string)
    requires AllSpace(ws) && AllSpace(ws2)
    ensures Confirmed(ws + answer + ws2) <==> Confirmed(answer)
  {
    StripPadded(ws, answer, ws2);
  }

  lemma LowerCharIs(c: char, lower: char)
    requires 'a' <= lower <= 'z'
    ensures LowerChar(c) == lower <==> (c == lower || c as int == lower as int - 'a' as int + 'A' as int)
  {
  }

  /** Exactly the answers "y" and "yes" in any mix of upper and lower case,
      once stripped, confirm the command; anything else, "no" and the empty
      answer included, aborts it. */
  lemma ConfirmedAnswers(answer: string)
    ensures Confirmed(answer) <==>
              var t := Strip(answer);
              (|t| == 1 && t[0] in "yY") ||
              (|t| == 3 && t[0] in "yY" && t[1] in "eE" && t[2] in "sS")
  {
    var t := Strip(answer);
    var l := Lower(t);
    assert l == "y" <==> |t| == 1 && LowerChar(t[0]) == 'y';
    assert l == "yes" <==> |t| == 3 && LowerChar(t[0]) == 'y' && LowerChar(t[1]) == 'e' && LowerChar(t[2]) == 's';
    if |t| > 0 {
      LowerCharIs(t[0], 'y');
    }
    if |t| == 3 {
      LowerCharIs(t[1], 'e');
      LowerCharIs(t[2], 's');
    }
  }
}
