/** The tool registry of the chat client: dispatching a model's tool calls
    to the registered tool functions, and deriving the JSON schema that
    advertises each tool from its signature and docstring.

    The tool bodies (web search, page extraction, file reading and writing)
    are opaque functions from parsed arguments to a string or an exception;
    `json.loads` is an opaque partial parser. */
module Tools {
  import opened Wrappers
  import opened Text
  import opened Messages

  /** A parsed JSON document. */
  datatype JsonValue =
    | JNull
    | JBool(b: bool)
    | JNumber(n: int)
    | JString(s: string)
    | JArray(items: seq<JsonValue>)
    | JObject(fields: seq<(string, JsonValue)>)

  /** A parameter's type annotation, as `get_type_hints` reports it. */
  datatype TypeHint = StrHint | IntHint | FloatHint | BoolHint | ListHint | DictHint | OtherHint(name: string)

  /** One parameter of a tool's signature: its name, its annotation (None
      when unannotated) and whether it has a default value. */
  datatype Param = Param(name: string, hint: Option<TypeHint>, hasDefault: bool)

  /** A registered tool function: `__name__`, `__doc__` ("" when None), its
      signature, and what awaiting `fn(**args)` does with parsed arguments
      (this includes the TypeError of a non-mapping or a bad keyword). */
  datatype ToolDef = ToolDef(name: string, doc: string, params: seq<Param>, call: JsonValue -> ToolOutcome)

  /** What awaiting a tool function gives: its result text, or the text of
      the exception it raised and whether that exception is a
      `json.JSONDecodeError`, which the caller's handler treats like
      unparsable arguments. */
  datatype ToolOutcome = ToolReturned(result: string) | ToolRaised(message: string, decodeError: bool)

  /** `_TOOLS` (key -> function, in insertion order) together with
      `json.loads`. */
  datatype Toolbox = Toolbox(entries: seq<(string, ToolDef)>, loads: string -> Outcome<JsonValue>)

  /** `_TOOLS.get(name)`: the first entry under that key. */
  function Lookup(entries: seq<(string, ToolDef)>, name: string): (r: Option<ToolDef>)
    ensures r.None? <==> forall i :: 0 <= i < |entries| ==> entries[i].0 != name
    ensures r.Some? ==> exists i :: 0 <= i < |entries| && entries[i].0 == name && entries[i].1 == r.value
  {
    if entries == [] then None
    else if entries[0].0 == name then Some(entries[0].1)
    else Lookup(entries[1..], name)
  }

  // ---------------------------------------------------------------------
  // Executing tool calls

  /** A `tool` result message answering the call with id `id`. */
  function ToolResult(id: string, text: string): Message
  {
    Message(Tool, Some(text), [], Some(id))
  }

  /** `_execute_single_tool`: every call, failing or not, becomes one tool
      message tied to the call's id; nothing is raised. */
  function ExecuteSingleTool(tc: ToolCall, box: Toolbox): (m: Message)
    ensures m.role == Tool && m.toolCallId == Some(tc.id) && m.toolCalls == [] && m.content.Some?
  {
    var text :=
      if tc.callType != "function" then "Error: Invalid tool call type"
      else match Lookup(box.entries, tc.name)
        case None => "Error: Unknown function '" + tc.name + "'"
        case Some(fn) =>
          match box.loads(tc.arguments)
          case Raised(e) => "Error: Invalid JSON arguments - " + e
          case Returned(args) =>
            match fn.call(args)
            case ToolRaised(e, true) => "Error: Invalid JSON arguments - " + e
            case ToolRaised(e, false) => "Error: " + e
            case ToolReturned(result) => result;
    ToolResult(tc.id, text)
  }

  /** Whether the call reaches the tool function, and with which arguments. */
  function Invocation(tc: ToolCall, box: Toolbox): Option<(ToolDef, JsonValue)>
  {
    if tc.callType != "function" then None
    else match Lookup(box.entries, tc.name)
      case None => None
      case Some(fn) =>
        match box.loads(tc.arguments)
        case Raised(_) => None
        case Returned(args) => Some((fn, args))
  }

  /** The failure cases of a single call: a wrong call type, a name missing
      from the registry, and unparsable arguments each give their own error
      text and run no tool; once the tool runs, its result is the content,
      a `JSONDecodeError` it raises reads like unparsable arguments, and any
      other exception becomes "Error: " and the exception text. */
  lemma ExecuteSingleToolOutcomes(tc: ToolCall, box: Toolbox)
    ensures tc.callType != "function" ==>
              Invocation(tc, box).None? && ExecuteSingleTool(tc, box).content == Some("Error: Invalid tool call type")
    ensures tc.callType == "function" && Lookup(box.entries, tc.name).None? ==>
              Invocation(tc, box).None? && ExecuteSingleTool(tc, box).content == Some("Error: Unknown function '" + tc.name + "'")
    ensures tc.callType == "function" && Lookup(box.entries, tc.name).Some? && box.loads(tc.arguments).Raised? ==>
              Invocation(tc, box).None? &&
              ExecuteSingleTool(tc, box).content == Some("Error: Invalid JSON arguments - " + box.loads(tc.arguments).message)
    ensures Invocation(tc, box).Some? ==>
              var (fn, args) := Invocation(tc, box).value;
              Lookup(box.entries, tc.name) == Some(fn) &&
              ExecuteSingleTool(tc, box).content ==
                Some(match fn.call(args)
                     case ToolReturned(result) => result
                     case ToolRaised(e, isDecodeError) =>
                       (if isDecodeError then "Error: Invalid JSON arguments - " else "Error: ") + e)
  {
  }

  /** `exec_tool_calls`: the calls run concurrently, and `gather` returns
      their results in the order of the calls, one per call. */
  function ExecToolCalls(calls: seq<ToolCall>, box: Toolbox): (results: seq<Message>)
    ensures |results| == |calls|
    ensures forall i :: 0 <= i < |calls| ==> results[i] == ExecuteSingleTool(calls[i], box)
  {
    if calls == [] then [] else [ExecuteSingleTool(calls[0], box)] + ExecToolCalls(calls[1..], box)
  }

  /** Every result is a `tool` message answering its own call. */
  lemma ToolResultsMatchCalls(calls: seq<ToolCall>, box: Toolbox)
    ensures forall i :: 0 <= i < |calls| ==>
              ExecToolCalls(calls, box)[i].role == Tool && ExecToolCalls(calls, box)[i].toolCallId == Some(calls[i].id)
  {
  }

  // ---------------------------------------------------------------------
  // Schemas

  /** `_get_tool_param_type`: the JSON type name of the parameter's hint; an
      unannotated parameter counts as `str`; an unknown type has no name. */
  function ParamType(paramName: string, hints: map<string, TypeHint>): (r: Option<string>)
  {
    var hint := if paramName in hints then hints[paramName] else StrHint;
    match hint
    case StrHint => Some("string")
    case IntHint => Some("integer")
    case FloatHint => Some("number")
    case BoolHint => Some("boolean")
    case ListHint => Some("array")
    case DictHint => Some("object")
    case OtherHint(_) => None
  }

  /** The hint a JSON type name stands for: the inverse of ParamType. */
  function HintOfTypeName(t: string): Option<TypeHint>
  {
    if t == "string" then Some(StrHint)
    else if t == "integer" then Some(IntHint)
    else if t == "number" then Some(FloatHint)
    else if t == "boolean" then Some(BoolHint)
    else if t == "array" then Some(ListHint)
    else if t == "object" then Some(DictHint)
    else None
  }

  /** The type table is one-to-one: the schema's type name gives the hint
      back, a missing hint reads as `str`, and only unknown types have no
      name. */
  lemma ParamTypeInverse(paramName: string, hints: map<string, TypeHint>)
    ensures paramName !in hints ==> ParamType(paramName, hints) == Some("string")
    ensures paramName in hints ==>
              (ParamType(paramName, hints).None? <==> hints[paramName].OtherHint?)
    ensures paramName in hints && !hints[paramName].OtherHint? ==>
              HintOfTypeName(ParamType(paramName, hints).value) == Some(hints[paramName])
  {
  }

  /** `get_type_hints(tool)` restricted to the parameters: the annotated
      ones, by name. */
  function HintsOf(params: seq<Param>): map<string, TypeHint>
  {
    if params == [] then map[]
    else
      var last := params[|params| - 1];
      var m := HintsOf(params[..|params| - 1]);
      if last.hint.Some? then m[last.name := last.hint.value] else m
  }

  /** `sig.parameters.get(name)` */
  function FindParam(params: seq<Param>, name: string): (r: Option<Param>)
    ensures r.Some? ==> r.value in params && r.value.name == name
    ensures r.None? ==> forall i :: 0 <= i < |params| ==> params[i].name != name
  {
    if params == [] then None
    else if params[0].name == name then Some(params[0])
    else FindParam(params[1..], name)
  }

  /** `[line.strip() for line in doc.split("\n") if line.strip()]` */
  function DocLines(doc: string): seq<string>
  {
    NonBlank(SplitOn(doc, '\n'))
  }

  function NonBlank(raw: seq<string>): seq<string>
  {
    if raw == [] then []
    else
      var s := Strip(raw[0]);
      (if s != [] then [s] else []) + NonBlank(raw[1..])
  }

  /** Every docstring line is non-empty, already stripped, and free of line
      breaks. */
  lemma {:induction false} NonBlankStripped(raw: seq<string>)
    requires forall i :: 0 <= i < |raw| ==> '\n' !in raw[i]
    ensures forall i :: 0 <= i < |NonBlank(raw)| ==>
              NonBlank(raw)[i] != [] && Strip(NonBlank(raw)[i]) == NonBlank(raw)[i] && '\n' !in NonBlank(raw)[i]
  {
    if raw != [] {
      NonBlankStripped(raw[1..]);
      StripIdempotent(raw[0]);
      StripSpec(raw[0]);
    }
  }

  lemma DocLinesStripped(doc: string)
    ensures forall i :: 0 <= i < |DocLines(doc)| ==>
              DocLines(doc)[i] != [] && Strip(DocLines(doc)[i]) == DocLines(doc)[i] && '\n' !in DocLines(doc)[i]
  {
    NonBlankStripped(SplitOn(doc, '\n'));
  }

  predicate IsArgsLine(line: string) { StartsWith(line, "Args:") }

  predicate IsReturnsLine(line: string) { StartsWith(line, "Returns:") }

  /** A line the schema loop reads as `name: description`. */
  predicate IsEntryLine(line: string) { !IsArgsLine(line) && ':' in line }

  predicate HasArgsLine(lines: seq<string>)
  {
    exists i :: 0 <= i < |lines| && IsArgsLine(lines[i])
  }

  /** Position of the first `Returns:` line; `|lines|` when there is none. */
  function FirstReturnsLine(lines: seq<string>): (k: nat)
    ensures k <= |lines|
  {
    if lines == [] then 0
    else if IsReturnsLine(lines[0]) then 0
    else 1 + FirstReturnsLine(lines[1..])
  }

  /** FirstReturnsLine finds the first `Returns:` line. */
  lemma {:induction false} FirstReturnsLineSpec(lines: seq<string>)
    ensures forall j :: 0 <= j < FirstReturnsLine(lines) ==> !IsReturnsLine(lines[j])
    ensures FirstReturnsLine(lines) < |lines| ==> IsReturnsLine(lines[FirstReturnsLine(lines)])
  {
    if lines != [] && !IsReturnsLine(lines[0]) {
      FirstReturnsLineSpec(lines[1..]);
      assert forall j :: 1 <= j < |lines| ==> lines[j] == lines[1..][j - 1];
    }
  }

  /** The lines before the first `Returns:` line. */
  function BeforeReturns(lines: seq<string>): seq<string>
  {
    lines[..FirstReturnsLine(lines)]
  }

  /** Position of the first `Args:` line; `|lines|` when there is none. */
  function FirstArgsLine(lines: seq<string>): (k: nat)
    ensures k <= |lines|
  {
    if lines == [] then 0
    else if IsArgsLine(lines[0]) then 0
    else 1 + FirstArgsLine(lines[1..])
  }

  /** FirstArgsLine finds the first `Args:` line, and finds one exactly when
      there is one. */
  lemma {:induction false} FirstArgsLineSpec(lines: seq<string>)
    ensures forall j :: 0 <= j < FirstArgsLine(lines) ==> !IsArgsLine(lines[j])
    ensures FirstArgsLine(lines) < |lines| ==> IsArgsLine(lines[FirstArgsLine(lines)])
    ensures FirstArgsLine(lines) < |lines| <==> HasArgsLine(lines)
  {
    if lines != [] && !IsArgsLine(lines[0]) {
      FirstArgsLineSpec(lines[1..]);
      assert forall j :: 1 <= j < |lines| ==> lines[j] == lines[1..][j - 1];
    }
  }

  /** The lines after the first `Args:` line; none when there is no such
      line. */
  function AfterArgs(lines: seq<string>): seq<string>
  {
    var k := FirstArgsLine(lines);
    if k < |lines| then lines[k + 1..] else []
  }

  /** The entry lines among `lines`, in order. */
  function Entries(lines: seq<string>): (r: seq<string>)
    ensures forall i :: 0 <= i < |r| ==> IsEntryLine(r[i]) && r[i] in lines
  {
    if lines == [] then []
    else
      var init := lines[..|lines| - 1];
      var last := lines[|lines| - 1];
      Entries(init) + (if IsEntryLine(last) then [last] else [])
  }

  /** The parameter entries of a docstring: entry lines after the first
      `Args:` line and before the first `Returns:` line. */
  function ParamEntries(lines: seq<string>): seq<string>
  {
    Entries(AfterArgs(BeforeReturns(lines)))
  }

  /** `line.split(":")[0].strip()` */
  function EntryName(line: string): string
    requires ':' in line
  {
    Strip(line[..IndexOf(line, ':')])
  }

  /** `line.split(":", 1)[1].strip()` */
  function EntryDescription(line: string): string
    requires ':' in line
  {
    Strip(line[IndexOf(line, ':') + 1..])
  }

  /** One entry of `properties`: `{"type": ..., "description": ...}`. */
  datatype Property = Property(typeName: Option<string>, description: string)

  /** The schema `{"type": "function", "function": {"name", "description",
      "parameters": {"type": "object", "properties", "required"}}}`; the
      two constant "type" fields are left implicit. */
  datatype Schema = Schema(name: string, description: string, properties: seq<(string, Property)>, required: seq<string>)

  /** Python dict assignment `d[key] = value`: a new key goes last, an
      existing key keeps its place. */
  function Put(d: seq<(string, Property)>, key: string, value: Property): (r: seq<(string, Property)>)
    ensures |r| == |d| || |r| == |d| + 1
    ensures forall i :: 0 <= i < |d| ==> r[i].0 == d[i].0
    ensures (key, value) in r
    ensures forall i :: 0 <= i < |r| ==> r[i].0 == key || r[i] in d
  {
    if d == [] then [(key, value)]
    else if d[0].0 == key then [(key, value)] + d[1..]
    else [d[0]] + Put(d[1..], key, value)
  }

  /** What one entry line `name: description` does to `properties`: a
      name that is a parameter of the signature gets its type and
      description; any other name is ignored. */
  function AddProperty(d: seq<(string, Property)>, line: string, params: seq<Param>): seq<(string, Property)>
    requires ':' in line
  {
    var paramName := EntryName(line);
    if FindParam(params, paramName).Some? then
      Put(d, paramName, Property(ParamType(paramName, HintsOf(params)), EntryDescription(line)))
    else d
  }

  /** What one entry line does to `required`: a parameter without a default
      is appended. */
  function AddRequired(r: seq<string>, line: string, params: seq<Param>): seq<string>
    requires ':' in line
  {
    var paramName := EntryName(line);
    var p := FindParam(params, paramName);
    if p.Some? && !p.value.hasDefault then r + [paramName] else r
  }

  /** The `properties` the schema loop builds from a list of entry lines. */
  function PropertiesOf(entries: seq<string>, params: seq<Param>): seq<(string, Property)>
    requires forall i :: 0 <= i < |entries| ==> ':' in entries[i]
  {
    if entries == [] then []
    else AddProperty(PropertiesOf(entries[..|entries| - 1], params), entries[|entries| - 1], params)
  }

  /** The `required` list the schema loop builds from a list of entry lines. */
  function RequiredOf(entries: seq<string>, params: seq<Param>): seq<string>
    requires forall i :: 0 <= i < |entries| ==> ':' in entries[i]
  {
    if entries == [] then []
    else AddRequired(RequiredOf(entries[..|entries| - 1], params), entries[|entries| - 1], params)
  }

  /** The schema advertised for a tool with the given name, docstring lines
      and signature. */
  function SchemaOfLines(name: string, lines: seq<string>, params: seq<Param>): Schema
  {
    var entries := ParamEntries(lines);
    Schema(name, if lines == [] then name else lines[0],
           PropertiesOf(entries, params), RequiredOf(entries, params))
  }

  /** The schema a tool is advertised with. */
  function SchemaOf(tool: ToolDef): Schema
  {
    SchemaOfLines(tool.name, DocLines(tool.doc), tool.params)
  }

  lemma FirstArgsLineSnoc(lines: seq<string>, line: string)
    ensures FirstArgsLine(lines + [line]) ==
              if HasArgsLine(lines) then FirstArgsLine(lines) else |lines| + (if IsArgsLine(line) then 0 else 1)
  {
    var p := lines + [line];
    var k := FirstArgsLine(lines);
    FirstArgsLineSpec(lines);
    FirstArgsLineSpec(p);
    assert forall j :: 0 <= j < |lines| ==> p[j] == lines[j];
    assert p[|lines|] == line;
  }

  lemma AfterArgsSnoc(lines: seq<string>, line: string)
    ensures AfterArgs(lines + [line]) == if HasArgsLine(lines) then AfterArgs(lines) + [line] else []
  {
    FirstArgsLineSnoc(lines, line);
    FirstArgsLineSpec(lines);
    var k := FirstArgsLine(lines);
    if HasArgsLine(lines) {
      assert (lines + [line])[k + 1..] == lines[k + 1..] + [line];
    }
  }

  lemma BeforeReturnsAt(lines: seq<string>, k: nat)
    requires k <= |lines|
    requires forall j :: 0 <= j < k ==> !IsReturnsLine(lines[j])
    requires k == |lines| || IsReturnsLine(lines[k])
    ensures BeforeReturns(lines) == lines[..k]
  {
    if k > 0 && !IsReturnsLine(lines[0]) {
      BeforeReturnsAt(lines[1..], k - 1);
      assert lines[..k] == [lines[0]] + lines[1..][..k - 1];
    }
  }

  lemma HasArgsLineSnoc(lines: seq<string>, line: string)
    ensures HasArgsLine(lines + [line]) <==> HasArgsLine(lines) || IsArgsLine(line)
  {
    var p := lines + [line];
    if HasArgsLine(p) && !IsArgsLine(line) {
      var i :| 0 <= i < |p| && IsArgsLine(p[i]);
      assert i < |lines| && p[i] == lines[i];
    }
    if HasArgsLine(lines) {
      var i :| 0 <= i < |lines| && IsArgsLine(lines[i]);
      assert p[i] == lines[i];
    }
    assert p[|lines|] == line;
  }

  /** How the parameter entries of a prefix grow by one line. */
  lemma EntriesStep(lines: seq<string>, line: string)
    ensures Entries(AfterArgs(lines + [line])) ==
              Entries(AfterArgs(lines)) + (if HasArgsLine(lines) && IsEntryLine(line) then [line] else [])
  {
    AfterArgsSnoc(lines, line);
    FirstArgsLineSpec(lines);
    if HasArgsLine(lines) {
      var a := AfterArgs(lines);
      assert (a + [line])[..|a|] == a;
    }
  }

  /** The `properties` built from the lines read so far. */
  function PrefixProperties(prefix: seq<string>, params: seq<Param>): seq<(string, Property)>
  {
    PropertiesOf(Entries(AfterArgs(prefix)), params)
  }

  /** The `required` list built from the lines read so far. */
  function PrefixRequired(prefix: seq<string>, params: seq<Param>): seq<string>
  {
    RequiredOf(Entries(AfterArgs(prefix)), params)
  }

  /** Reading one more line: only an entry line after `Args:` is added. */
  lemma PrefixStep(prefix: seq<string>, line: string, params: seq<Param>)
    ensures HasArgsLine(prefix) && IsEntryLine(line) ==>
              PrefixProperties(prefix + [line], params) == AddProperty(PrefixProperties(prefix, params), line, params)
              && PrefixRequired(prefix + [line], params) == AddRequired(PrefixRequired(prefix, params), line, params)
    ensures !(HasArgsLine(prefix) && IsEntryLine(line)) ==>
              PrefixProperties(prefix + [line], params) == PrefixProperties(prefix, params)
              && PrefixRequired(prefix + [line], params) == PrefixRequired(prefix, params)
  {
    EntriesStep(prefix, line);
    var entries := Entries(AfterArgs(prefix));
    if HasArgsLine(prefix) && IsEntryLine(line) {
      assert (entries + [line])[..|entries|] == entries;
    } else {
      assert entries + [] == entries;
    }
  }

  lemma ArgsLineIsNotReturnsLine(line: string)
    ensures IsArgsLine(line) ==> !IsReturnsLine(line)
  {
    if IsArgsLine(line) {
      assert line[0] == 'A';
    }
  }

  /** The variables of the schema loop: `in_args`, `properties` and
      `required`. */
  datatype ScanState = ScanState(inArgs: bool, properties: seq<(string, Property)>, required: seq<string>)

  /** One iteration of the schema loop on a line that is not a `Returns:`
      line. */
  function ScanLine(st: ScanState, line: string, params: seq<Param>): ScanState
  {
    if IsArgsLine(line) then st.(inArgs := true)
    else if st.inArgs && ':' in line then
      st.(properties := AddProperty(st.properties, line, params), required := AddRequired(st.required, line, params))
    else st
  }

  /** The loop variables after reading `lines` from the start. */
  function Scan(lines: seq<string>, params: seq<Param>): ScanState
  {
    if lines == [] then ScanState(false, [], [])
    else ScanLine(Scan(lines[..|lines| - 1], params), lines[|lines| - 1], params)
  }

  /** The single pass with its flag computes exactly the entries-based
      definition: the flag says whether `Args:` has been seen, and the
      properties and required names are those of the entry lines after
      it. */
  lemma {:induction false} ScanMeaning(lines: seq<string>, params: seq<Param>)
    ensures Scan(lines, params) == ScanState(HasArgsLine(lines), PrefixProperties(lines, params), PrefixRequired(lines, params))
  {
    if lines == [] {
      assert !HasArgsLine(lines);
      FirstArgsLineSpec(lines);
    } else {
      var init := lines[..|lines| - 1];
      var line := lines[|lines| - 1];
      assert lines == init + [line];
      ScanMeaning(init, params);
      HasArgsLineSnoc(init, line);
      PrefixStep(init, line, params);
    }
  }

  /** The body of the `for tool in _TOOLS.values()` loop of
      `get_tool_schemas` once the docstring lines are known: one pass over
      the lines with the `in_args` flag, stopping at `Returns:`. */
  method SchemaFromLines(name: string, lines: seq<string>, params: seq<Param>) returns (schema: Schema)
    ensures schema == SchemaOfLines(name, lines, params)
  {
    var description := if lines != [] then lines[0] else name;
    var hints := HintsOf(params);
    var properties: seq<(string, Property)> := [];
    var required: seq<string> := [];
    var inArgs := false;
    var k := 0;
    while k < |lines|
      invariant 0 <= k <= |lines|
      invariant forall j :: 0 <= j < k ==> !IsReturnsLine(lines[j])
      invariant ScanState(inArgs, properties, required) == Scan(lines[..k], params)
    {
      var line := lines[k];
      assert lines[..k + 1][..k] == lines[..k];
      ArgsLineIsNotReturnsLine(line);
      if IsArgsLine(line) {
        inArgs := true;
      } else if IsReturnsLine(line) {
        break;
      } else if inArgs && ':' in line {
        properties, required := AddEntry(properties, required, line, params, hints);
      }
      k := k + 1;
    }
    BeforeReturnsAt(lines, k);
    ScanMeaning(lines[..k], params);
    schema := Schema(name, description, properties, required);
  }

  /** One `name: description` line inside the `Args:` section: a real
      parameter gets its property, and is required when it has no
      default. */
  method AddEntry(properties: seq<(string, Property)>, required: seq<string>, line: string, params: seq<Param>, hints: map<string, TypeHint>)
    returns (properties': seq<(string, Property)>, required': seq<string>)
    requires ':' in line && hints == HintsOf(params)
    ensures properties' == AddProperty(properties, line, params)
    ensures required' == AddRequired(required, line, params)
  {
    properties', required' := properties, required;
    var paramName := EntryName(line);
    var param := FindParam(params, paramName);
    if param.Some? {
      properties' := Put(properties, paramName, Property(ParamType(paramName, hints), EntryDescription(line)));
      if !param.value.hasDefault {
        required' := required + [paramName];
      }
    }
  }

  /** The schema of one registered tool. */
  method ToolSchema(tool: ToolDef) returns (schema: Schema)
    ensures schema == SchemaOf(tool)
  {
    var lines := DocLines(tool.doc);
    schema := SchemaFromLines(tool.name, lines, tool.params);
  }

  /** `f` applied to each element, in order. */
  function Mapped<A, B>(f: A -> B, xs: seq<A>): seq<B>
  {
    if xs == [] then [] else Mapped(f, xs[..|xs| - 1]) + [f(xs[|xs| - 1])]
  }

  lemma {:induction false} MappedAt<A, B>(f: A -> B, xs: seq<A>)
    ensures |Mapped(f, xs)| == |xs|
    ensures forall i :: 0 <= i < |xs| ==> Mapped(f, xs)[i] == f(xs[i])
  {
    if xs != [] {
      var init := xs[..|xs| - 1];
      MappedAt(f, init);
      forall i | 0 <= i < |xs| ensures Mapped(f, xs)[i] == f(xs[i]) {
        if i < |init| {
          assert Mapped(f, xs)[i] == Mapped(f, init)[i];
          assert init[i] == xs[i];
        }
      }
    }
  }

  /** The schemas of the registered tools, in registry order. */
  function Schemas(entries: seq<(string, ToolDef)>): seq<Schema>
  {
    Mapped((e: (string, ToolDef)) => SchemaOf(e.1), entries)
  }

  /** One schema per registered tool, in registry order. */
  lemma SchemasInOrder(entries: seq<(string, ToolDef)>)
    ensures |Schemas(entries)| == |entries|
    ensures forall i :: 0 <= i < |entries| ==> Schemas(entries)[i] == SchemaOf(entries[i].1)
  {
    MappedAt((e: (string, ToolDef)) => SchemaOf(e.1), entries);
  }

  /** `get_tool_schemas`: one schema per registered tool, in registry order. */
  method GetToolSchemas(entries: seq<(string, ToolDef)>) returns (schemas: seq<Schema>)
    ensures schemas == Schemas(entries)
  {
    schemas := [];
    for i := 0 to |entries|
      invariant schemas == Schemas(entries[..i])
    {
      var s := ToolSchema(entries[i].1);
      assert entries[..i + 1][..i] == entries[..i];
      schemas := schemas + [s];
    }
    assert entries[..|entries|] == entries;
  }

  // ---------------------------------------------------------------------
  // Properties of the advertised schemas

  /** The keys of a dictionary. */
  function KeySet(d: seq<(string, Property)>): set<string>
  {
    if d == [] then {} else {d[0].0} + KeySet(d[1..])
  }

  /** No key occurs twice. */
  predicate DistinctKeys(d: seq<(string, Property)>)
  {
    d == [] || (d[0].0 !in KeySet(d[1..]) && DistinctKeys(d[1..]))
  }

  /** Assigning adds the key to the dictionary's keys and nothing else. */
  lemma {:induction false} PutKeySet(d: seq<(string, Property)>, key: string, value: Property)
    ensures KeySet(Put(d, key, value)) == KeySet(d) + {key}
  {
    if d != [] && d[0].0 != key {
      PutKeySet(d[1..], key, value);
    }
  }

  /** Assigning a key keeps the keys of a dictionary distinct. */
  lemma {:induction false} PutKeepsKeysDistinct(d: seq<(string, Property)>, key: string, value: Property)
    requires DistinctKeys(d)
    ensures DistinctKeys(Put(d, key, value))
  {
    if d != [] && d[0].0 != key {
      PutKeepsKeysDistinct(d[1..], key, value);
      PutKeySet(d[1..], key, value);
    }
  }

  /** `properties` has distinct keys, all of them parameters of the
      signature, and `required` names exactly the properties whose
      parameter has no default. */
  predicate ParamsConsistent(d: seq<(string, Property)>, r: seq<string>, params: seq<Param>)
  {
    && DistinctKeys(d)
    && (forall k :: k in KeySet(d) ==> FindParam(params, k).Some?)
    && (forall n :: n in r ==> FindParam(params, n).Some? && !FindParam(params, n).value.hasDefault && n in KeySet(d))
    && (forall k :: k in KeySet(d) && FindParam(params, k).Some? && !FindParam(params, k).value.hasDefault ==> k in r)
  }

  lemma PutConsistent(d: seq<(string, Property)>, r: seq<string>, key: string, value: Property, params: seq<Param>)
    requires ParamsConsistent(d, r, params)
    requires FindParam(params, key).Some?
    ensures FindParam(params, key).value.hasDefault ==> ParamsConsistent(Put(d, key, value), r, params)
    ensures !FindParam(params, key).value.hasDefault ==> ParamsConsistent(Put(d, key, value), r + [key], params)
  {
    PutKeepsKeysDistinct(d, key, value);
    PutKeySet(d, key, value);
  }

  lemma AddEntryConsistent(d: seq<(string, Property)>, r: seq<string>, line: string, params: seq<Param>)
    requires ':' in line
    requires ParamsConsistent(d, r, params)
    ensures ParamsConsistent(AddProperty(d, line, params), AddRequired(r, line, params), params)
  {
    var paramName := EntryName(line);
    if FindParam(params, paramName).Some? {
      PutConsistent(d, r, paramName, Property(ParamType(paramName, HintsOf(params)), EntryDescription(line)), params);
    }
  }

  /** The `properties` and `required` built from any entry lines are
      consistent with the signature. */
  lemma {:induction false} PropertiesAreParams(entries: seq<string>, params: seq<Param>)
    requires forall i :: 0 <= i < |entries| ==> ':' in entries[i]
    ensures ParamsConsistent(PropertiesOf(entries, params), RequiredOf(entries, params), params)
  {
    if entries != [] {
      var init := entries[..|entries| - 1];
      PropertiesAreParams(init, params);
      AddEntryConsistent(PropertiesOf(init, params), RequiredOf(init, params), entries[|entries| - 1], params);
    }
  }

  /** The schema of a tool advertises only its real parameters, each once,
      and requires only parameters without defaults. */
  lemma SchemaOfNamesParams(tool: ToolDef)
    ensures ParamsConsistent(SchemaOf(tool).properties, SchemaOf(tool).required, tool.params)
  {
    PropertiesAreParams(ParamEntries(DocLines(tool.doc)), tool.params);
  }

  /** A schema is named after its function; its description is the first
      non-blank docstring line, stripped, or the name when the docstring
      has none. */
  lemma SchemaDescription(tool: ToolDef)
    ensures SchemaOf(tool).name == tool.name
    ensures DocLines(tool.doc) == [] ==> SchemaOf(tool).description == tool.name
    ensures DocLines(tool.doc) != [] ==>
              SchemaOf(tool).description == DocLines(tool.doc)[0]
              && SchemaOf(tool).description != []
              && Strip(SchemaOf(tool).description) == SchemaOf(tool).description
  {
    DocLinesStripped(tool.doc);
  }

  /** Without an `Args:` line before `Returns:`, a tool advertises no
      parameters at all. */
  lemma NoArgsLineNoParameters(name: string, lines: seq<string>, params: seq<Param>)
    requires !HasArgsLine(BeforeReturns(lines))
    ensures SchemaOfLines(name, lines, params).properties == []
    ensures SchemaOfLines(name, lines, params).required == []
  {
    FirstArgsLineSpec(BeforeReturns(lines));
  }

  /** Nothing after the first `Returns:` line affects the schema. */
  lemma ReturnsEndsDocstring(name: string, lines: seq<string>, rest: seq<string>, params: seq<Param>)
    requires exists k :: 0 <= k < |lines| && IsReturnsLine(lines[k])
    ensures SchemaOfLines(name, lines + rest, params) == SchemaOfLines(name, lines, params)
  {
    var f := FirstReturnsLine(lines);
    FirstReturnsLineSpec(lines);
    var all := lines + rest;
    assert forall j :: 0 <= j < |lines| ==> all[j] == lines[j];
    BeforeReturnsAt(lines, f);
    BeforeReturnsAt(all, f);
    assert all[..f] == lines[..f];
  }
}
