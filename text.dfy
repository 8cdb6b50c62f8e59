/** The string primitives the tool code relies on: `str.strip`, `str.lower`,
    `str.split(c)[0]`, `str.splitlines` and the regex classes `\s` and `\w`.
    All of them are modelled over ASCII; `splitlines` splits on '\n' only. */
module Text {

  /** Python's `str.isspace` restricted to ASCII, which is also what `\s`
      matches in a `str` pattern and what `strip` removes: blank, tab, the
      line breaks '\n', '\r', '\x0b', '\x0c' and the separators '\x1c' to
      '\x1f'. */
  predicate IsSpace(c: char) {
    c == ' ' || c == '\t' || c == '\n' || c == '\r' || c == '\U{000C}' || c == '\U{000B}' ||
    ('\U{001C}' <= c <= '\U{001F}')
  }

  /** Python's `\w` restricted to ASCII. */
  predicate IsWordChar(c: char) {
    ('a' <= c <= 'z') || ('A' <= c <= 'Z') || ('0' <= c <= '9') || c == '_'
  }

  predicate AllSpace(s: string) {
    forall i :: 0 <= i < |s| ==> IsSpace(s[i])
  }

  predicate AllWord(s: string) {
    forall i :: 0 <= i < |s| ==> IsWordChar(s[i])
  }

  /** `str.lstrip()`: drop every leading whitespace character. */
  function TrimStart(s: string): (r: string)
    ensures |r| <= |s|
  {
    if |s| > 0 && IsSpace(s[0]) then TrimStart(s[1..]) else s
  }

  /** `str.rstrip()`: drop every trailing whitespace character. */
  function TrimEnd(s: string): (r: string)
    ensures |r| <= |s|
  {
    if |s| > 0 && IsSpace(s[|s| - 1]) then TrimEnd(s[..|s| - 1]) else s
  }

  /** `str.strip()`. */
  function Strip(s: string): (r: string)
    ensures |r| <= |s|
  {
    TrimEnd(TrimStart(s))
  }

  /** `lstrip` removes a run of whitespace and stops at the first other
      character. */
  lemma {:induction false} TrimStartSpec(s: string)
    ensures TrimStart(s) == s[|s| - |TrimStart(s)|..]
    ensures AllSpace(s[..|s| - |TrimStart(s)|])
    ensures TrimStart(s) == [] || !IsSpace(TrimStart(s)[0])
  {
    if |s| > 0 && IsSpace(s[0]) {
      TrimStartSpec(s[1..]);
      assert s[..|s| - |TrimStart(s)|] == [s[0]] + s[1..][..|s| - 1 - |TrimStart(s)|];
    }
  }

  /** `rstrip` removes a run of whitespace at the end and stops at the last
      other character. */
  lemma {:induction false} TrimEndSpec(s: string)
    ensures TrimEnd(s) == s[..|TrimEnd(s)|]
    ensures AllSpace(s[|TrimEnd(s)|..])
    ensures TrimEnd(s) == [] || !IsSpace(TrimEnd(s)[|TrimEnd(s)| - 1])
  {
    if |s| > 0 && IsSpace(s[|s| - 1]) {
      TrimEndSpec(s[..|s| - 1]);
      assert s[|TrimEnd(s)|..] == s[..|s| - 1][|TrimEnd(s)|..] + [s[|s| - 1]];
    }
  }

  /** A stripped string has no whitespace at either end. */
  lemma StripSpec(s: string)
    ensures Strip(s) == [] || (!IsSpace(Strip(s)[0]) && !IsSpace(Strip(s)[|Strip(s)| - 1]))
  {
    TrimStartSpec(s);
    TrimEndSpec(TrimStart(s));
  }

  function LowerChar(c: char): char {
    if 'A' <= c <= 'Z' then (c as int - 'A' as int + 'a' as int) as char else c
  }

  /** `str.lower()`. */
  function Lower(s: string): (r: string)
    ensures |r| == |s|
    ensures forall i :: 0 <= i < |s| ==> r[i] == LowerChar(s[i])
  {
    if s == [] then [] else [LowerChar(s[0])] + Lower(s[1..])
  }

  predicate StartsWith(s: string, prefix: string) {
    |prefix| <= |s| && s[..|prefix|] == prefix
  }

  /** Index of the first `c` in `s`, or `|s|` when there is none. */
  function IndexOf(s: string, c: char): (k: nat)
    ensures k <= |s|
    ensures forall i :: 0 <= i < k ==> s[i] != c
    ensures k < |s| ==> s[k] == c
  {
    if s == [] || s[0] == c then 0 else 1 + IndexOf(s[1..], c)
  }

  /** `s.split(c)[0]`: everything before the first `c`. */
  function Head(s: string, c: char): (r: string)
    ensures c !in r && StartsWith(s, r)
  {
    s[..IndexOf(s, c)]
  }

  /** `str.splitlines()` for '\n' line breaks: the empty string has no lines,
      and a final '\n' does not open an empty last line. */
  function SplitLines(s: string): (lines: seq<string>)
    ensures forall k :: 0 <= k < |lines| ==> '\n' !in lines[k]
    decreases |s|
  {
    if s == [] then []
    else
      var k := IndexOf(s, '\n');
      if k == |s| then [s] else [s[..k]] + SplitLines(s[k + 1..])
  }

  /** The inverse of `SplitLines`: the lines joined by '\n'. A docstring is
      written in this model as the join of its source lines. */
  function JoinLines(lines: seq<string>): string {
    if lines == [] then []
    else if |lines| == 1 then lines[0]
    else lines[0] + "\n" + JoinLines(lines[1..])
  }

  // ---------------------------------------------------------------------
  // Stripping

  lemma {:induction false} TrimStartSpaces(ws: string, s: string)
    requires AllSpace(ws)
    ensures TrimStart(ws + s) == TrimStart(s)
  {
    if ws == [] {
      assert ws + s == s;
    } else {
      assert (ws + s)[1..] == ws[1..] + s;
      TrimStartSpaces(ws[1..], s);
    }
  }

  lemma {:induction false} TrimStartAppend(s: string, t: string)
    requires TrimStart(s) != []
    ensures TrimStart(s + t) == TrimStart(s) + t
  {
    if |s| > 0 && IsSpace(s[0]) {
      assert (s + t)[1..] == s[1..] + t;
      TrimStartAppend(s[1..], t);
    }
  }

  lemma {:induction false} TrimEndSpaces(s: string, ws: string)
    requires AllSpace(ws)
    ensures TrimEnd(s + ws) == TrimEnd(s)
  {
    if ws == [] {
      assert s + ws == s;
    } else {
      var w' := ws[..|ws| - 1];
      assert (s + ws)[..|s + ws| - 1] == s + w';
      TrimEndSpaces(s, w');
    }
  }

  /** Whitespace around a string never changes what `strip` returns. */
  lemma StripPadded(ws: string, s: string, ws2: string)
    requires AllSpace(ws) && AllSpace(ws2)
    ensures Strip(ws + s + ws2) == Strip(s)
  {
    assert ws + s + ws2 == ws + (s + ws2);
    TrimStartSpaces(ws, s + ws2);
    assert Strip(ws + s + ws2) == TrimEnd(TrimStart(s + ws2));
    if TrimStart(s) == [] {
      TrimStartSpec(s);
      assert AllSpace(s);
      assert AllSpace(s + ws2);
      TrimStartSpaces(s + ws2, []);
      assert s + ws2 + [] == s + ws2;
      assert TrimStart(s + ws2) == [];
    } else {
      TrimStartAppend(s, ws2);
      TrimEndSpaces(TrimStart(s), ws2);
    }
  }

  /** `strip` is the identity on a string with no outer whitespace. */
  lemma StripOfTrimmed(t: string)
    requires t == [] || (!IsSpace(t[0]) && !IsSpace(t[|t| - 1]))
    ensures Strip(t) == t
  {
  }

  /** `strip` of indented text with trailing blanks is the text. */
  lemma StripIndented(ws: string, t: string, ws2: string)
    requires AllSpace(ws) && AllSpace(ws2)
    requires t == [] || (!IsSpace(t[0]) && !IsSpace(t[|t| - 1]))
    ensures Strip(ws + t + ws2) == t
  {
    StripPadded(ws, t, ws2);
    StripOfTrimmed(t);
  }

  /** A string made only of whitespace strips to the empty string. */
  lemma StripBlank(ws: string)
    requires AllSpace(ws)
    ensures Strip(ws) == []
  {
    StripIndented(ws, [], []);
    assert ws + [] + [] == ws;
  }

  // ---------------------------------------------------------------------
  // Splitting

  lemma {:induction false} IndexOfAfter(a: string, c: char, b: string)
    requires c !in a
    ensures IndexOf(a + [c] + b, c) == |a|
  {
    if a != [] {
      assert (a + [c] + b)[1..] == a[1..] + [c] + b;
      IndexOfAfter(a[1..], c, b);
    }
  }

  lemma {:induction false} IndexOfAbsent(a: string, c: char)
    requires c !in a
    ensures IndexOf(a, c) == |a|
  {
    if a != [] {
      IndexOfAbsent(a[1..], c);
    }
  }

  /** `split(c)[0]` of a string that has `c` right after `a`. */
  lemma HeadOf(a: string, c: char, b: string)
    requires c !in a
    ensures Head(a + [c] + b, c) == a
  {
    IndexOfAfter(a, c, b);
    assert (a + [c] + b)[..|a|] == a;
  }

  /** Splitting the join of lines gives the lines back, provided no line holds
      a '\n' and the last line is not empty (an empty last line would be read
      as a trailing line break). */
  lemma {:induction false} SplitJoin(lines: seq<string>)
    requires forall k :: 0 <= k < |lines| ==> '\n' !in lines[k]
    requires lines == [] || lines[|lines| - 1] != []
    ensures SplitLines(JoinLines(lines)) == lines
  {
    if |lines| == 1 {
      IndexOfAbsent(lines[0], '\n');
    } else if |lines| > 1 {
      var rest := JoinLines(lines[1..]);
      var s := lines[0] + "\n" + rest;
      IndexOfAfter(lines[0], '\n', rest);
      assert s[..|lines[0]|] == lines[0];
      assert s[|lines[0]| + 1..] == rest;
      SplitJoin(lines[1..]);
    }
  }

  lemma JoinCons(a: string, lines: seq<string>)
    requires lines != []
    ensures JoinLines([a] + lines) == a + "\n" + JoinLines(lines)
  {
    assert ([a] + lines)[1..] == lines;
  }

  lemma SplitAt(s: string, k: nat)
    requires k < |s| && k == IndexOf(s, '\n')
    ensures SplitLines(s) == [s[..k]] + SplitLines(s[k + 1..])
  {
  }

  /** `s` without its final '\n', if it ends in one. */
  function DropFinalBreak(s: string): string {
    if s != [] && s[|s| - 1] == '\n' then s[..|s| - 1] else s
  }

  /** Joining the lines gives the text back, except for one final line
      break, which `splitlines` drops. */
  lemma {:induction false} JoinSplit(s: string)
    ensures JoinLines(SplitLines(s)) == DropFinalBreak(s)
    decreases |s|
  {
    if s != [] {
      var k := IndexOf(s, '\n');
      if k < |s| {
        var rest := s[k + 1..];
        SplitAt(s, k);
        if rest == [] {
          assert s == s[..k] + "\n";
        } else {
          JoinSplit(rest);
          JoinSplitStep(s, k, rest);
        }
      }
    }
  }

  lemma JoinSplitStep(s: string, k: nat, rest: string)
    requires k < |s| && rest == s[k + 1..] && rest != []
    requires SplitLines(s) == [s[..k]] + SplitLines(rest)
    requires JoinLines(SplitLines(rest)) == DropFinalBreak(rest)
    ensures JoinLines(SplitLines(s)) == DropFinalBreak(s)
  {
    var a, lines := s[..k], SplitLines(rest);
    assert lines != [] by { SplitNonEmpty(rest); }
    JoinCons(a, lines);
    assert s == (a + "\n") + rest;
    DropFinalBreakAppend(a + "\n", rest);
  }

  lemma SplitNonEmpty(s: string)
    requires s != []
    ensures SplitLines(s) != []
  {
  }

  lemma DropFinalBreakAppend(p: string, r: string)
    requires r != []
    ensures DropFinalBreak(p + r) == p + DropFinalBreak(r)
  {
    if r[|r| - 1] == '\n' {
      assert (p + r)[..|p + r| - 1] == p + r[..|r| - 1];
    }
  }
}
