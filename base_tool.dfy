/** `ToolBase.get_tool_spec`: every public method defined on the concrete tool
    class becomes a tool specification whose parameter schema is derived from
    the method's signature and whose descriptions come from its Sphinx-style
    docstring.

    Python reflection is replaced by an explicit input: the attributes that
    `dir(self)` lists, in that order, each with what `getattr`,
    `callable`, `__qualname__`, `inspect.signature` and `__doc__` would give. */
module ToolBase {
  import opened Wrappers
  import opened Text

  /** The annotation of a parameter as far as the type mapping can tell them
      apart; `Unannotated` is `inspect.Parameter.empty`. */
  datatype Annotation = IntType | FloatType | BoolType | DictType | ListType | StrType
                      | Unannotated | OtherType(typeName: string)

  /** One entry of `inspect.signature(attr).parameters` of a bound method. */
  datatype Param = Param(name: string, annotation: Annotation, hasDefault: bool)

  /** What reflection tells about a callable attribute. An absent docstring
      is the empty string (`attr.__doc__ or ""`). */
  datatype Method = Method(qualname: string, params: seq<Param>, doc: string)

  /** One name listed by `dir(self)`; `callable` is `None` when the attribute
      is not callable. */
  datatype Attr = Attr(name: string, callable: Option<Method>)

  /** The schema of one parameter: `{"type": ..., "description"?: ...}`. */
  datatype Prop = Prop(jsonType: string, description: Option<string>)

  /** `{"type": "object", "properties": {...}, "required"?: [...]}`; the
      properties keep insertion order, as Python dictionaries do, and
      `required == None` means that the key is absent. */
  datatype Parameters = Parameters(schemaType: string, properties: seq<(string, Prop)>,
                                   required: Option<seq<string>>)

  /** `{"name", "description", "parameters", "function"}`; the handler is
      named by the attribute it was read from. */
  datatype ToolSpec = ToolSpec(name: string, description: string, parameters: Parameters,
                               handler: string)

  const ParamTag := ":param"

  // ---------------------------------------------------------------------
  // The docstring pattern `:param\s+(\w+):\s*(.*)`, applied with `re.match`

  /** Length of the longest prefix of word characters. */
  function WordLen(s: string): (n: nat)
    ensures n <= |s| && AllWord(s[..n])
    ensures n < |s| ==> !IsWordChar(s[n])
  {
    if s != [] && IsWordChar(s[0]) then 1 + WordLen(s[1..]) else 0
  }

  /** The two groups of `re.match(r":param\s+(\w+):\s*(.*)", line)`, or
      `None` when it does not match. Both `\s+` and `\w+` are greedy and the
      classes are disjoint, so the first maximal run decides; `.*` stops at a
      line break. */
  function MatchParam(line: string): (m: Option<(string, string)>)
    ensures m.Some? ==> StartsWith(line, ParamTag) && m.value.0 != [] && AllWord(m.value.0)
  {
    if !StartsWith(line, ParamTag) then None else MatchGap(line[|ParamTag|..])
  }

  /** `\s+(\w+):\s*(.*)` */
  function MatchGap(rest: string): (m: Option<(string, string)>)
    ensures m.Some? ==> m.value.0 != [] && AllWord(m.value.0)
  {
    var name := TrimStart(rest);
    if |name| == |rest| then None else MatchName(name)
  }

  /** `(\w+):\s*(.*)` */
  function MatchName(s: string): (m: Option<(string, string)>)
    ensures m.Some? ==> m.value.0 != [] && AllWord(m.value.0)
  {
    var n := WordLen(s);
    if n == 0 || n == |s| || s[n] != ':' then None
    else Some((s[..n], FirstLine(TrimStart(s[n + 1..]))))
  }

  /** `.*`: everything up to the first line break, greedily. */
  function FirstLine(t: string): (r: string)
    ensures '\n' !in r && StartsWith(t, r)
    ensures |r| < |t| ==> t[|r|] == '\n'
  {
    t[..IndexOf(t, '\n')]
  }

  /** Every line of the documented shape matches, with its name and its
      description as the groups. */
  lemma MatchParamComplete(ws: string, name: string, ws2: string, text: string)
    requires ws != [] && AllSpace(ws) && AllSpace(ws2)
    requires name != [] && AllWord(name)
    requires '\n' !in text && (text == [] || !IsSpace(text[0]))
    ensures MatchParam(ParamTag + ws + name + ":" + ws2 + text) == Some((name, text))
  {
    var after := name + ":" + ws2 + text;
    var line := ParamTag + (ws + after);
    assert line == ParamTag + ws + name + ":" + ws2 + text;
    assert line[|ParamTag|..] == ws + after;
    MatchGapComplete(ws, after);
    MatchNameComplete(name, ws2, text);
  }

  lemma MatchGapComplete(ws: string, after: string)
    requires ws != [] && AllSpace(ws)
    requires after != [] && !IsSpace(after[0])
    ensures MatchGap(ws + after) == MatchName(after)
  {
    TrimStartSpaces(ws, after);
  }

  lemma MatchNameComplete(name: string, ws2: string, text: string)
    requires name != [] && AllWord(name) && AllSpace(ws2)
    requires '\n' !in text && (text == [] || !IsSpace(text[0]))
    ensures MatchName(name + ":" + ws2 + text) == Some((name, text))
  {
    var s := name + ":" + ws2 + text;
    var n := |name|;
    assert WordLen(s) == n by {
      assert s == name + (":" + ws2 + text);
      WordLenOf(name, ":" + ws2 + text);
    }
    assert n < |s| && s[n] == ':' && s[..n] == name;
    assert TrimStart(s[n + 1..]) == text by {
      assert s[n + 1..] == ws2 + text;
      TrimStartSpaces(ws2, text);
      TrimStartFixed(text);
    }
    assert FirstLine(text) == text by {
      IndexOfAbsent(text, '\n');
    }
  }

  lemma TrimStartFixed(t: string)
    requires t == [] || !IsSpace(t[0])
    ensures TrimStart(t) == t
  {
  }

  lemma {:induction false} WordLenOf(name: string, rest: string)
    requires AllWord(name)
    requires rest != [] && !IsWordChar(rest[0])
    ensures WordLen(name + rest) == |name|
  {
    if name != [] {
      assert (name + rest)[1..] == name[1..] + rest;
      WordLenOf(name[1..], rest);
    } else {
      assert name + rest == rest;
    }
  }

  /** Conversely, a line without line breaks that matches has exactly that
      shape. */
  lemma MatchParamSound(line: string)
    requires '\n' !in line && MatchParam(line).Some?
    ensures exists ws, ws2 :: ws != [] && AllSpace(ws) && AllSpace(ws2) &&
              line == ParamTag + ws + MatchParam(line).value.0 + ":" + ws2 + MatchParam(line).value.1
  {
    var ws, s := MatchGapSound(line);
    var ws2, tail := MatchNameSound(s);
    var name := MatchName(s).value.0;
    var head := ParamTag + ws + name + ":" + ws2;
    assert line == head + tail by {
      assert s == name + ":" + ws2 + tail;
    }
    assert FirstLine(tail) == tail by {
      NoBreakInSuffix(head, tail);
      IndexOfAbsent(tail, '\n');
    }
  }

  /** A match starts with the tag and a non-empty run of blanks. */
  lemma MatchGapSound(line: string) returns (ws: string, s: string)
    requires MatchParam(line).Some?
    ensures ws != [] && AllSpace(ws) && line == ParamTag + ws + s
    ensures MatchParam(line) == MatchName(s)
  {
    var rest := line[|ParamTag|..];
    assert StartsWith(line, ParamTag);
    s := TrimStart(rest);
    ws := rest[..|rest| - |s|];
    assert rest == ws + s && AllSpace(ws) by {
      TrimStartSpec(rest);
    }
    assert line == ParamTag + rest;
    assert MatchParam(line) == MatchName(s);
  }

  lemma NoBreakInSuffix(a: string, b: string)
    requires '\n' !in a + b
    ensures '\n' !in b
  {
    assert forall i :: 0 <= i < |b| ==> b[i] == (a + b)[|a| + i];
  }

  /** A name match splits its input into the name, the colon, the blanks
      that `\s*` skips and a tail whose first line is the description. */
  lemma MatchNameSound(s: string) returns (ws2: string, tail: string)
    requires MatchName(s).Some?
    ensures AllSpace(ws2)
    ensures s == MatchName(s).value.0 + ":" + ws2 + tail
    ensures MatchName(s).value.1 == FirstLine(tail)
  {
    var n := WordLen(s);
    var t := s[n + 1..];
    tail := TrimStart(t);
    ws2 := t[..|t| - |tail|];
    assert AllSpace(ws2) && t == ws2 + tail by {
      TrimStartSpec(t);
    }
    assert s == s[..n] + ":" + ws2 + tail by {
      assert s == s[..n] + ":" + t;
    }
  }

  /** Whether `line`, once stripped, documents parameter `name`. */
  predicate Documents(line: string, name: string) {
    var m := MatchParam(Strip(line));
    m.Some? && m.value.0 == name
  }

  /** `param_docs` after the loop over `doc.splitlines()`: each stripped
      line that matches adds its name, and a later line overwrites an
      earlier one. */
  function ParamDocs(lines: seq<string>): map<string, string> {
    if lines == [] then map[]
    else
      var docs := ParamDocs(lines[..|lines| - 1]);
      match MatchParam(Strip(lines[|lines| - 1]))
      case Some((name, text)) => docs[name := text]
      case None => docs
  }

  /** A name is documented iff some line of the docstring documents it. */
  lemma {:induction false} ParamDocsHas(lines: seq<string>, name: string)
    ensures name in ParamDocs(lines) <==> exists k :: 0 <= k < |lines| && Documents(lines[k], name)
  {
    if lines != [] {
      var n := |lines| - 1;
      var init := lines[..n];
      ParamDocsHas(init, name);
      ParamDocsSnoc(lines, name);
      if name in ParamDocs(init) {
        var k :| 0 <= k < n && Documents(init[k], name);
        assert Documents(lines[k], name);
      }
      if exists k :: 0 <= k < |lines| && Documents(lines[k], name) {
        var k :| 0 <= k < |lines| && Documents(lines[k], name);
        if k < n {
          assert init[k] == lines[k];
        }
      }
    }
  }

  /** One more line adds its name, if it documents one. */
  lemma ParamDocsSnoc(lines: seq<string>, name: string)
    requires lines != []
    ensures name in ParamDocs(lines) <==>
              name in ParamDocs(lines[..|lines| - 1]) || Documents(lines[|lines| - 1], name)
  {
  }

  /** The description of a documented name is the one given by the last
      line that documents it: a later `:param` line overwrites an earlier. */
  lemma {:induction false} ParamDocsLast(lines: seq<string>, name: string, k: nat)
    requires k < |lines| && Documents(lines[k], name)
    requires forall j :: k < j < |lines| ==> !Documents(lines[j], name)
    ensures name in ParamDocs(lines)
    ensures ParamDocs(lines)[name] == MatchParam(Strip(lines[k])).value.1
  {
    var n := |lines| - 1;
    if k < n {
      var init := lines[..n];
      assert init[k] == lines[k];
      assert forall j :: k < j < n ==> init[j] == lines[j];
      ParamDocsLast(init, name, k);
      assert !Documents(lines[n], name);
    }
  }

  /** A docstring none of whose lines matches documents nothing. */
  lemma {:induction false} ParamDocsNone(lines: seq<string>)
    requires forall j :: 0 <= j < |lines| ==> MatchParam(Strip(lines[j])).None?
    ensures ParamDocs(lines) == map[]
  {
    if lines != [] {
      ParamDocsNone(lines[..|lines| - 1]);
    }
  }

  /** A docstring with a single matching line documents that line's name
      with that line's text, and nothing else. */
  lemma {:induction false} ParamDocsOne(lines: seq<string>, k: nat, name: string, text: string)
    requires k < |lines| && MatchParam(Strip(lines[k])) == Some((name, text))
    requires forall j :: 0 <= j < |lines| && j != k ==> MatchParam(Strip(lines[j])).None?
    ensures ParamDocs(lines) == map[name := text]
  {
    var n := |lines| - 1;
    var init := lines[..n];
    if k == n {
      ParamDocsNone(init);
    } else {
      ParamDocsOne(init, k, name, text);
    }
  }

  // ---------------------------------------------------------------------
  // The parameter schema

  /** The annotation-to-JSON-type table; everything else becomes "string". */
  function JsonType(a: Annotation): (t: string)
    ensures t in {"integer", "number", "boolean", "object", "array", "string"}
    ensures t == "string" <==> (a.StrType? || a.Unannotated? || a.OtherType?)
  {
    match a
    case IntType => "integer"
    case FloatType => "number"
    case BoolType => "boolean"
    case DictType => "object"
    case ListType => "array"
    case _ => "string"
  }

  /** A parameter that gets a property: every one but `self`. */
  predicate Listed(p: Param) {
    p.name != "self"
  }

  /** A parameter that goes into `required`: listed and without default. */
  predicate IsRequired(p: Param) {
    Listed(p) && !p.hasDefault
  }

  function PropOf(p: Param, docs: map<string, string>): Prop {
    Prop(JsonType(p.annotation), if p.name in docs then Some(docs[p.name]) else None)
  }

  /** `parameters_schema["properties"]` in insertion order. */
  function Properties(params: seq<Param>, docs: map<string, string>): seq<(string, Prop)> {
    if params == [] then []
    else
      var n := |params| - 1;
      var props := Properties(params[..n], docs);
      if Listed(params[n]) then props + [(params[n].name, PropOf(params[n], docs))] else props
  }

  /** `parameters_schema["required"]` before the final `pop`. */
  function Required(params: seq<Param>): seq<string> {
    if params == [] then []
    else
      var n := |params| - 1;
      var req := Required(params[..n]);
      if IsRequired(params[n]) then req + [params[n].name] else req
  }

  /** The schema `get_tool_spec` builds for one signature: the `required`
      key is absent exactly when no parameter is required, never empty. */
  function Schema(params: seq<Param>, docs: map<string, string>): (s: Parameters)
    ensures s.schemaType == "object"
    ensures s.required.None? <==> Required(params) == []
    ensures s.required.Some? ==> s.required.value == Required(params) != []
  {
    var req := Required(params);
    Parameters("object", Properties(params, docs), if req == [] then None else Some(req))
  }

  function CountListed(params: seq<Param>): nat {
    if params == [] then 0
    else CountListed(params[..|params| - 1]) + (if Listed(params[|params| - 1]) then 1 else 0)
  }

  function CountRequired(params: seq<Param>): nat {
    if params == [] then 0
    else CountRequired(params[..|params| - 1]) + (if IsRequired(params[|params| - 1]) then 1 else 0)
  }

  predicate DistinctNames(params: seq<Param>) {
    forall i, j :: 0 <= i < j < |params| ==> params[i].name != params[j].name
  }

  /** One property per parameter other than `self`. */
  lemma {:induction false} PropertiesCount(params: seq<Param>, docs: map<string, string>)
    ensures |Properties(params, docs)| == CountListed(params)
  {
    if params != [] {
      PropertiesCount(params[..|params| - 1], docs);
    }
  }

  /** Parameter `i`, unless it is `self`, has its property right after the
      properties of the parameters before it: keyed by its name, typed by
      its annotation, and described exactly when the docstring documents
      it. So the properties follow signature order. */
  lemma {:induction false} PropertiesAt(params: seq<Param>, docs: map<string, string>, i: nat)
    requires i < |params| && Listed(params[i])
    ensures CountListed(params[..i]) < |Properties(params, docs)|
    ensures Properties(params, docs)[CountListed(params[..i])] == (params[i].name, PropOf(params[i], docs))
  {
    var n := |params| - 1;
    var init := params[..n];
    if i == n {
      PropertiesCount(init, docs);
    } else {
      assert init[..i] == params[..i] && init[i] == params[i];
      PropertiesAt(init, docs, i);
    }
  }

  /** Every property comes from a parameter other than `self`; in
      particular no property is keyed "self". */
  lemma {:induction false} PropertiesFrom(params: seq<Param>, docs: map<string, string>, k: nat)
    requires k < |Properties(params, docs)|
    ensures Properties(params, docs)[k].0 != "self"
    ensures exists i :: 0 <= i < |params| && Listed(params[i]) &&
                        Properties(params, docs)[k] == (params[i].name, PropOf(params[i], docs))
  {
    var n := |params| - 1;
    var init := params[..n];
    if k < |Properties(init, docs)| {
      PropertiesFrom(init, docs, k);
      var i :| 0 <= i < n && Listed(init[i]) && Properties(init, docs)[k] == (init[i].name, PropOf(init[i], docs));
      assert init[i] == params[i];
    } else {
      assert Properties(params, docs)[k] == (params[n].name, PropOf(params[n], docs));
    }
  }

  /** With the distinct names a Python signature always has, each key occurs
      once: together with `PropertiesAt`, every parameter but `self`
      appears exactly once. */
  lemma {:induction false} PropertiesKeysDistinct(params: seq<Param>, docs: map<string, string>)
    requires DistinctNames(params)
    ensures forall k, l :: 0 <= k < l < |Properties(params, docs)| ==>
              Properties(params, docs)[k].0 != Properties(params, docs)[l].0
  {
    if params != [] {
      var n := |params| - 1;
      var init := params[..n];
      PropertiesKeysDistinct(init, docs);
      if Listed(params[n]) {
        forall k | 0 <= k < |Properties(init, docs)|
          ensures Properties(init, docs)[k].0 != params[n].name
        {
          PropertiesFrom(init, docs, k);
        }
      }
    }
  }

  /** `required` has one entry per parameter that is not `self` and has no
      default. */
  lemma {:induction false} RequiredCount(params: seq<Param>)
    ensures |Required(params)| == CountRequired(params)
  {
    if params != [] {
      RequiredCount(params[..|params| - 1]);
    }
  }

  /** A required parameter's name sits in `required` right after those of
      the required parameters before it: `required` keeps signature order. */
  lemma {:induction false} RequiredAt(params: seq<Param>, i: nat)
    requires i < |params| && IsRequired(params[i])
    ensures CountRequired(params[..i]) < |Required(params)|
    ensures Required(params)[CountRequired(params[..i])] == params[i].name
  {
    var n := |params| - 1;
    var init := params[..n];
    if i == n {
      RequiredCount(init);
    } else {
      assert init[..i] == params[..i] && init[i] == params[i];
      RequiredAt(init, i);
    }
  }

  /** A name is in `required` iff it names a parameter that is not `self`
      and has no default. */
  lemma {:induction false} RequiredMember(params: seq<Param>, name: string)
    ensures name in Required(params) <==>
              exists i :: 0 <= i < |params| && IsRequired(params[i]) && params[i].name == name
  {
    if params != [] {
      var n := |params| - 1;
      var init := params[..n];
      RequiredMember(init, name);
      if name in Required(init) {
        var i :| 0 <= i < n && IsRequired(init[i]) && init[i].name == name;
        assert params[i] == init[i];
      }
      if exists i :: 0 <= i < |params| && IsRequired(params[i]) && params[i].name == name {
        var i :| 0 <= i < |params| && IsRequired(params[i]) && params[i].name == name;
        if i < n {
          assert init[i] == params[i];
        }
      }
    }
  }

  /** The `required` key is omitted exactly when every parameter is `self`
      or has a default. */
  lemma RequiredAbsent(params: seq<Param>, docs: map<string, string>)
    ensures Schema(params, docs).required.None? <==> forall i :: 0 <= i < |params| ==> !IsRequired(params[i])
  {
    if Required(params) != [] {
      RequiredMember(params, Required(params)[0]);
    } else {
      forall i | 0 <= i < |params| ensures !IsRequired(params[i]) {
        RequiredMember(params, params[i].name);
      }
    }
  }

  // ---------------------------------------------------------------------
  // The description

  /** The first line that is not blank once stripped, stripped; "" when
      there is none. */
  function Description(lines: seq<string>): (d: string)
    ensures d == [] <==> forall k :: 0 <= k < |lines| ==> Strip(lines[k]) == []
    ensures d != [] ==> exists k :: 0 <= k < |lines| && d == Strip(lines[k]) &&
                                    forall j :: 0 <= j < k ==> Strip(lines[j]) == []
  {
    if lines == [] then []
    else if Strip(lines[0]) != [] then Strip(lines[0])
    else
      var d := Description(lines[1..]);
      assert forall k :: 1 <= k < |lines| ==> lines[1..][k - 1] == lines[k];
      d
  }

  // ---------------------------------------------------------------------
  // Tool selection

  /** The attributes that become tools: public, callable, and defined on the
      class itself (the head of the qualified name is the class name). */
  predicate IsTool(className: string, attr: Attr) {
    !StartsWith(attr.name, "_") && attr.callable.Some? &&
    Head(attr.callable.value.qualname, '.') == className
  }

  function SpecOf(attr: Attr): ToolSpec
    requires attr.callable.Some?
  {
    var m := attr.callable.value;
    var lines := SplitLines(m.doc);
    ToolSpec(attr.name, Description(lines), Schema(m.params, ParamDocs(lines)), attr.name)
  }

  /** The list `get_tool_spec` returns, in `dir()` order. */
  function DeriveSpecs(className: string, attrs: seq<Attr>): seq<ToolSpec> {
    if attrs == [] then []
    else
      var n := |attrs| - 1;
      var specs := DeriveSpecs(className, attrs[..n]);
      if IsTool(className, attrs[n]) then specs + [SpecOf(attrs[n])] else specs
  }

  function CountTools(className: string, attrs: seq<Attr>): nat {
    if attrs == [] then 0
    else CountTools(className, attrs[..|attrs| - 1]) + (if IsTool(className, attrs[|attrs| - 1]) then 1 else 0)
  }

  /** One spec per tool attribute. */
  lemma {:induction false} DeriveSpecsCount(className: string, attrs: seq<Attr>)
    ensures |DeriveSpecs(className, attrs)| == CountTools(className, attrs)
  {
    if attrs != [] {
      DeriveSpecsCount(className, attrs[..|attrs| - 1]);
    }
  }

  /** The spec of tool attribute `i` follows those of the tool attributes
      before it: the specs keep `dir()` order. */
  lemma {:induction false} DeriveSpecsAt(className: string, attrs: seq<Attr>, i: nat)
    requires i < |attrs| && IsTool(className, attrs[i])
    ensures CountTools(className, attrs[..i]) < |DeriveSpecs(className, attrs)|
    ensures DeriveSpecs(className, attrs)[CountTools(className, attrs[..i])] == SpecOf(attrs[i])
  {
    var n := |attrs| - 1;
    var init := attrs[..n];
    if i == n {
      DeriveSpecsCount(className, init);
    } else {
      assert init[..i] == attrs[..i] && init[i] == attrs[i];
      DeriveSpecsAt(className, init, i);
    }
  }

  /** Every spec comes from a public callable whose qualified name starts
      with the class name: private attributes, data attributes and
      inherited methods such as `get_tool_spec` itself never yield one. */
  lemma {:induction false} DeriveSpecsFrom(className: string, attrs: seq<Attr>, k: nat)
    requires k < |DeriveSpecs(className, attrs)|
    ensures !StartsWith(DeriveSpecs(className, attrs)[k].name, "_")
    ensures exists i :: 0 <= i < |attrs| && IsTool(className, attrs[i]) &&
                        DeriveSpecs(className, attrs)[k] == SpecOf(attrs[i])
  {
    var n := |attrs| - 1;
    var init := attrs[..n];
    if k < |DeriveSpecs(className, init)| {
      DeriveSpecsFrom(className, init, k);
      var i :| 0 <= i < n && IsTool(className, init[i]) && DeriveSpecs(className, init)[k] == SpecOf(init[i]);
      assert init[i] == attrs[i];
    } else {
      assert DeriveSpecs(className, attrs)[k] == SpecOf(attrs[n]);
    }
  }

  /** Attributes whose names start with "_" never yield a spec. */
  lemma {:induction false} DeriveSpecsPrivate(className: string, attrs: seq<Attr>)
    requires forall i :: 0 <= i < |attrs| ==> StartsWith(attrs[i].name, "_")
    ensures DeriveSpecs(className, attrs) == []
  {
    if attrs != [] {
      DeriveSpecsPrivate(className, attrs[..|attrs| - 1]);
    }
  }

  /** Deriving over two runs of attributes is deriving over each. */
  lemma {:induction false} DeriveSpecsAppend(className: string, a: seq<Attr>, b: seq<Attr>)
    ensures DeriveSpecs(className, a + b) == DeriveSpecs(className, a) + DeriveSpecs(className, b)
  {
    if b == [] {
      assert a + b == a;
    } else {
      var n := |b| - 1;
      DeriveSpecsAppend(className, a, b[..n]);
      assert (a + b)[..|a + b| - 1] == a + b[..n];
      assert (a + b)[|a + b| - 1] == b[n];
    }
  }

  // ---------------------------------------------------------------------
  // The imperative derivation, as `get_tool_spec` performs it

  /** The first loop of `get_tool_spec`: fill `param_docs` line by line. */
  method ParseParamDocs(doc: string) returns (docs: map<string, string>)
    ensures docs == ParamDocs(SplitLines(doc))
  {
    var lines := SplitLines(doc);
    docs := map[];
    var i := 0;
    while i < |lines|
      invariant 0 <= i <= |lines|
      invariant docs == ParamDocs(lines[..i])
    {
      var line := Strip(lines[i]);
      assert lines[..i + 1][..i] == lines[..i];
      if StartsWith(line, ParamTag) {
        var m := MatchParam(line);
        if m.Some? {
          docs := docs[m.value.0 := m.value.1];
        }
      }
      i := i + 1;
    }
    assert lines[..i] == lines;
  }

  /** The loop over the signature, then the `pop` of an empty `required`. */
  method BuildParameters(params: seq<Param>, docs: map<string, string>) returns (schema: Parameters)
    ensures schema == Schema(params, docs)
  {
    var properties: seq<(string, Prop)> := [];
    var required: seq<string> := [];
    var i := 0;
    while i < |params|
      invariant 0 <= i <= |params|
      invariant properties == Properties(params[..i], docs)
      invariant required == Required(params[..i])
    {
      var p := params[i];
      assert params[..i + 1][..i] == params[..i];
      if p.name != "self" {
        var prop := Prop(JsonType(p.annotation), None);
        if p.name in docs {
          prop := prop.(description := Some(docs[p.name]));
        }
        properties := properties + [(p.name, prop)];
        if !p.hasDefault {
          required := required + [p.name];
        }
      }
      i := i + 1;
    }
    assert params[..i] == params;
    if required == [] {
      schema := Parameters("object", properties, None);
    } else {
      schema := Parameters("object", properties, Some(required));
    }
  }

  /** The second loop of `get_tool_spec`: stop at the first non-blank line. */
  method FirstNonEmptyLine(doc: string) returns (description: string)
    ensures description == Description(SplitLines(doc))
  {
    var lines := SplitLines(doc);
    description := "";
    var i := 0;
    while i < |lines|
      invariant 0 <= i <= |lines|
      invariant forall j :: 0 <= j < i ==> Strip(lines[j]) == []
      invariant Description(lines) == Description(lines[i..])
    {
      var line := Strip(lines[i]);
      if line != [] {
        description := line;
        break;
      }
      assert lines[i..][1..] == lines[i + 1..];
      i := i + 1;
    }
  }

  /** `ToolBase.get_tool_spec` over the attributes `dir(self)` lists for an
      instance of class `className`. */
  method GetToolSpec(className: string, attrs: seq<Attr>) returns (specs: seq<ToolSpec>)
    ensures specs == DeriveSpecs(className, attrs)
  {
    specs := [];
    var i := 0;
    while i < |attrs|
      invariant 0 <= i <= |attrs|
      invariant specs == DeriveSpecs(className, attrs[..i])
    {
      var attr := attrs[i];
      assert attrs[..i + 1][..i] == attrs[..i];
      i := i + 1;
      if StartsWith(attr.name, "_") {
        continue;
      }
      if attr.callable.Some? {
        var m := attr.callable.value;
        if Head(m.qualname, '.') != className {
          continue;
        }
        var docs := ParseParamDocs(m.doc);
        var parameters := BuildParameters(m.params, docs);
        var description := FirstNonEmptyLine(m.doc);
        specs := specs + [ToolSpec(attr.name, description, parameters, attr.name)];
      }
    }
    assert attrs[..i] == attrs;
  }
}
