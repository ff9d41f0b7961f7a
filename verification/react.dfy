/** The ReAct strategy: rounds of "model thinks, maybe acts, tool observes",
    the prompt rebuilt from the scratchpad of earlier rounds, and tool calls
    that take their file arguments from the dispatcher's shared map. The
    model, the output parser, JSON encoding and the tool engine are given as
    functions (`Oracles`). */
module ReAct {
  import opened Common
  import opened ToolEntities
  import opened FileDispatcher
  import opened AgentBase

  // ---------------------------------------------------------------------------
  // Values exchanged with the model and the tools
  // ---------------------------------------------------------------------------

  /** A decoded JSON value (numbers are kept as integers). */
  datatype Json =
    | JNull
    | JBool(b: bool)
    | JInt(i: int)
    | JStr(s: string)
    | JList(items: seq<Json>)
    | JObject(fields: map<string, Json>)

  /** Python truthiness of a decoded value. */
  predicate JsonTruthy(j: Json) {
    match j
    case JNull => false
    case JBool(b) => b
    case JInt(i) => i != 0
    case JStr(s) => s != ""
    case JList(items) => items != []
    case JObject(fields) => fields != map[]
  }

  /** The action the output parser found in the model's reply. */
  datatype Action = Action(name: string, input: Json)

  /** What the output parser yields: an action or a piece of text. */
  datatype Chunk = ActionChunk(action: Action) | TextChunk(text: string)

  datatype RoundOutput = RoundOutput(chunks: seq<Chunk>, usage: Option<Tokens>)

  datatype ScratchpadUnit = ScratchpadUnit(
    agentResponse: string,
    thought: string,
    actionStr: string,
    observation: string,
    action: Option<Action>)

  /** An argument value: decoded JSON, or a file injected from the shared map. */
  datatype ArgValue = JsonArg(json: Json) | FileArg(file: File)

  /** Tool arguments after normalisation: a dictionary, or the non-dictionary
      value a JSON string decoded to. */
  datatype ToolArgs = ObjectArgs(args: map<string, ArgValue>) | NonObjectArgs(value: Json)

  /** The collaborators a run depends on and cannot see into. */
  datatype Oracles = Oracles(
    /** The parsed reply of the model in round `n` to `messages` with `stop`. */
    llm: (nat, seq<PromptMessage>, seq<string>) -> RoundOutput,
    /** `json.dumps(action.model_dump())` */
    dumpsAction: Action -> string,
    /** `json.dumps(value, ensure_ascii=False)` */
    dumps: Json -> string,
    /** `str(value)` for a value that is not a string */
    str: Json -> string,
    /** `json.loads(text)`, `None` on a decoding error */
    loads: string -> Option<Json>,
    /** The messages `ToolEngine.generic_invoke` yields for a tool other than
        the file dispatcher. */
    engine: (string, ToolArgs) -> seq<ToolMessage>)

  // ---------------------------------------------------------------------------
  // Run-loop helpers
  // ---------------------------------------------------------------------------

  const ObservationStop := "Observation"

  /** The stop list sent to the model: the caller's list, with "Observation"
      added at the end when it is missing. */
  function StopWithObservation(stop: seq<string>): (r: seq<string>)
    ensures ObservationStop in r
    ensures stop <= r && |r| <= |stop| + 1
    ensures ObservationStop in stop ==> r == stop
  {
    if ObservationStop in stop then stop else stop + [ObservationStop]
  }

  const DefaultThought := "I am thinking about how to help you"

  /** The thought recorded for a round: never empty, never padded. */
  function CleanThought(thought: string): (r: string)
    ensures r != [] && !IsSpace(r[0]) && !IsSpace(r[|r| - 1])
    ensures r == Strip(thought) || (AllSpace(thought) && r == DefaultThought)
  {
    var t := Strip(thought);
    if t != "" then t else DefaultThought
  }

  /** A round ends the run when it has no action or its action is called
      "final answer" in any letter case. */
  predicate IsFinal(action: Option<Action>) {
    action.None? || LowerEquals(action.value.name, "final answer")
  }

  /** `str(final_answer)`, where a dictionary was first JSON-encoded. */
  function AnswerText(input: Json, o: Oracles): string {
    match input
    case JStr(s) => s
    case JObject(_) => o.dumps(input)
    case _ => o.str(input)
  }

  /** The text a run returns when its last round is `action`. */
  function FinalText(action: Option<Action>, o: Oracles): (r: string)
    ensures action.None? || !JsonTruthy(action.value.input) ==> r == ""
    ensures action.Some? && action.value.input.JStr? ==> r == action.value.input.s
  {
    if action.Some? && JsonTruthy(action.value.input) then AnswerText(action.value.input, o) else ""
  }

  /** The scratchpad unit built from one reply: every chunk extends the
      response, text chunks extend the thought, and the last action chunk
      is the action. */
  function UnitOf(chunks: seq<Chunk>, o: Oracles): (u: ScratchpadUnit)
    ensures u.observation == ""
    ensures u.action.None? ==> u.actionStr == ""
    ensures u.action.Some? ==> u.actionStr == o.dumpsAction(u.action.value)
  {
    if chunks == [] then ScratchpadUnit("", "", "", "", None)
    else
      var u := UnitOf(chunks[..|chunks| - 1], o);
      match chunks[|chunks| - 1]
      case ActionChunk(a) =>
        var s := o.dumpsAction(a);
        u.(agentResponse := u.agentResponse + s, actionStr := s, action := Some(a))
      case TextChunk(t) =>
        u.(agentResponse := u.agentResponse + t, thought := u.thought + t)
  }

  /** A reply has no action exactly when all of its chunks are text. */
  lemma {:induction false} UnitOfNoAction(chunks: seq<Chunk>, o: Oracles)
    ensures UnitOf(chunks, o).action.None? <==> forall k :: 0 <= k < |chunks| ==> chunks[k].TextChunk?
  {
    if chunks != [] {
      var init := chunks[..|chunks| - 1];
      UnitOfNoAction(init, o);
      assert forall k :: 0 <= k < |init| ==> init[k] == chunks[k];
    }
  }

  /** When a reply has an action, it is the last action chunk of the reply. */
  lemma {:induction false} UnitOfLastAction(chunks: seq<Chunk>, o: Oracles)
    requires UnitOf(chunks, o).action.Some?
    ensures exists k :: 0 <= k < |chunks| && chunks[k] == ActionChunk(UnitOf(chunks, o).action.value) &&
                        forall j :: k < j < |chunks| ==> chunks[j].TextChunk?
  {
    var n := |chunks| - 1;
    if chunks[n].ActionChunk? {
      assert chunks[n] == ActionChunk(UnitOf(chunks, o).action.value);
    } else {
      var init := chunks[..n];
      assert UnitOf(chunks, o).action == UnitOf(init, o).action;
      UnitOfLastAction(init, o);
      var k :| 0 <= k < |init| && init[k] == ActionChunk(UnitOf(init, o).action.value) &&
               forall j :: k < j < |init| ==> init[j].TextChunk?;
      assert chunks[k] == init[k];
      assert forall j :: k < j < |chunks| ==> chunks[j].TextChunk? by {
        assert forall j :: k < j < n ==> chunks[j] == init[j];
      }
    }
  }

  /** The chunk loop of a round. */
  method ProcessChunks(chunks: seq<Chunk>, o: Oracles) returns (unit: ScratchpadUnit)
    ensures unit == UnitOf(chunks, o)
  {
    unit := ScratchpadUnit("", "", "", "", None);
    var i := 0;
    while i < |chunks|
      invariant 0 <= i <= |chunks|
      invariant unit == UnitOf(chunks[..i], o)
    {
      assert chunks[..i + 1][..i] == chunks[..i];
      match chunks[i] {
        case ActionChunk(a) =>
          var actionStr := o.dumpsAction(a);
          unit := unit.(agentResponse := unit.agentResponse + actionStr, actionStr := actionStr, action := Some(a));
        case TextChunk(t) =>
          unit := unit.(agentResponse := unit.agentResponse + t, thought := unit.thought + t);
      }
      i := i + 1;
    }
    assert chunks[..i] == chunks;
  }

  // ---------------------------------------------------------------------------
  // The prompt
  // ---------------------------------------------------------------------------

  function ToolEntry(t: Tool): string {
    t.name + ": " + t.description
  }

  function QuotedName(t: Tool): string {
    "\"" + t.name + "\""
  }

  /** The tools that answer `identity`, in order. */
  function Identified(tools: seq<AgentTool>): (ts: seq<Tool>)
    ensures |ts| <= |tools|
  {
    if tools == [] then []
    else
      var rest := Identified(tools[..|tools| - 1]);
      if tools[|tools| - 1].tool.hasIdentity then rest + [tools[|tools| - 1].tool] else rest
  }

  /** Only tools that answer `identity` are listed, and none is missed: the
      list is empty exactly when no tool answers. */
  lemma {:induction false} IdentifiedSound(tools: seq<AgentTool>)
    ensures forall k :: 0 <= k < |Identified(tools)| ==> Identified(tools)[k].hasIdentity
    ensures (forall k :: 0 <= k < |tools| ==> !tools[k].tool.hasIdentity) <==> Identified(tools) == []
  {
    if tools != [] {
      var init := tools[..|tools| - 1];
      IdentifiedSound(init);
      assert forall k :: 0 <= k < |init| ==> init[k] == tools[k];
    }
  }

  function MapEntries(ts: seq<Tool>): (r: seq<string>)
    ensures |r| == |ts|
  {
    if ts == [] then [] else MapEntries(ts[..|ts| - 1]) + [ToolEntry(ts[|ts| - 1])]
  }

  function MapQuoted(ts: seq<Tool>): (r: seq<string>)
    ensures |r| == |ts|
  {
    if ts == [] then [] else MapQuoted(ts[..|ts| - 1]) + [QuotedName(ts[|ts| - 1])]
  }

  /** One line per listed tool, `name: description`, and one quoted name. */
  lemma {:induction false} MapEach(ts: seq<Tool>)
    ensures forall k :: 0 <= k < |ts| ==> MapEntries(ts)[k] == ToolEntry(ts[k]) && MapQuoted(ts)[k] == QuotedName(ts[k])
  {
    if ts != [] {
      MapEach(ts[..|ts| - 1]);
    }
  }

  const NoTools := "No tools available"

  /** The `{{tools}}` and `{{tool_names}}` texts. */
  function ToolsText(tools: seq<AgentTool>, includeTools: bool): (r: (string, string))
    ensures !includeTools || tools == [] ==> r == (NoTools, "")
    ensures includeTools && tools != [] ==>
              r.0 == Join("\n", MapEntries(Identified(tools))) && r.1 == Join(", ", MapQuoted(Identified(tools)))
  {
    if includeTools && tools != [] then
      var ts := Identified(tools);
      (Join("\n", MapEntries(ts)), Join(", ", MapQuoted(ts)))
    else (NoTools, "")
  }

  /** The lines one unit contributes: each non-empty field, in the order
      thought, action, observation. */
  function UnitParts(u: ScratchpadUnit): (ps: seq<string>)
    ensures forall k :: 0 <= k < |ps| ==> ps[k] != ""
    ensures ps == [] <==> u.thought == "" && u.actionStr == "" && u.observation == ""
  {
    (if u.thought != "" then ["Thought: " + u.thought] else []) +
    (if u.actionStr != "" then ["Action:\n```\n" + u.actionStr + "\n```"] else []) +
    (if u.observation != "" then ["Observation: " + u.observation] else [])
  }

  function ScratchpadParts(units: seq<ScratchpadUnit>): (ps: seq<string>)
    ensures forall k :: 0 <= k < |ps| ==> ps[k] != ""
  {
    if units == [] then [] else ScratchpadParts(units[..|units| - 1]) + UnitParts(units[|units| - 1])
  }

  predicate BlankUnit(u: ScratchpadUnit) {
    u.thought == "" && u.actionStr == "" && u.observation == ""
  }

  lemma {:induction false} ScratchpadPartsEmpty(units: seq<ScratchpadUnit>)
    ensures ScratchpadParts(units) == [] <==> forall k :: 0 <= k < |units| ==> BlankUnit(units[k])
  {
    if units != [] {
      var init := units[..|units| - 1];
      ScratchpadPartsEmpty(init);
      assert forall k :: 0 <= k < |init| ==> init[k] == units[k];
    }
  }

  lemma JoinNonEmpty(sep: string, parts: seq<string>)
    requires parts != [] && parts[0] != ""
    ensures Join(sep, parts) != ""
  {
  }

  /** The scratchpad text: every non-empty field of every unit, one per line. */
  function RenderScratchpad(units: seq<ScratchpadUnit>): string {
    Join("\n", ScratchpadParts(units))
  }

  /** The scratchpad renders to nothing exactly when every unit is blank. */
  lemma RenderScratchpadEmpty(units: seq<ScratchpadUnit>)
    ensures RenderScratchpad(units) == "" <==> forall k :: 0 <= k < |units| ==> BlankUnit(units[k])
  {
    ScratchpadPartsEmpty(units);
    if ScratchpadParts(units) != [] {
      JoinNonEmpty("\n", ScratchpadParts(units));
    }
  }

  /** The system prompt: the template with its three placeholders filled. */
  function FillTemplate(template: string, toolsText: string, toolNames: string): string {
    var p := Replace(template, "{{instruction}}", "");
    var p := Replace(p, "{{tools}}", toolsText);
    Replace(p, "{{tool_names}}", toolNames)
  }

  /** `_build_prompt_with_react_format`: the system prompt, the original
      messages unchanged, and an assistant message holding the scratchpad
      when it is not empty. */
  function BuildPrompt(original: seq<PromptMessage>, units: seq<ScratchpadUnit>, includeTools: bool,
                       tools: seq<AgentTool>, template: string): (r: seq<PromptMessage>)
    ensures |r| == |original| + 1 || |r| == |original| + 2
    ensures r[0].role == SystemRole && r[..|original| + 1] == [r[0]] + original
    ensures |r| == |original| + 2 <==> RenderScratchpad(units) != ""
    ensures |r| == |original| + 2 ==> r[|original| + 1] == PromptMessage(AssistantRole, StrContent(RenderScratchpad(units)))
  {
    var (toolsText, toolNames) := ToolsText(tools, includeTools);
    var system := PromptMessage(SystemRole, StrContent(FillTemplate(template, toolsText, toolNames)));
    var scratchpad := RenderScratchpad(units);
    var r := [system] + original + (if scratchpad != "" then [PromptMessage(AssistantRole, StrContent(scratchpad))] else []);
    assert r[..|original| + 1] == [system] + original;
    r
  }

  /** Once a round has been recorded, every later prompt ends with the
      scratchpad: recorded thoughts are never empty. */
  lemma PromptCarriesScratchpad(original: seq<PromptMessage>, units: seq<ScratchpadUnit>, includeTools: bool,
                                tools: seq<AgentTool>, template: string)
    requires units != [] && units[0].thought != ""
    ensures |BuildPrompt(original, units, includeTools, tools, template)| == |original| + 2
  {
    RenderScratchpadEmpty(units);
    assert !BlankUnit(units[0]);
  }

  /** A template without placeholders is used as it is. */
  lemma TemplateWithoutPlaceholders(template: string, toolsText: string, toolNames: string)
    requires !Occurs(template, "{{instruction}}") && !Occurs(template, "{{tools}}") && !Occurs(template, "{{tool_names}}")
    ensures FillTemplate(template, toolsText, toolNames) == template
  {
    ReplaceAbsent(template, "{{instruction}}", "");
    ReplaceAbsent(template, "{{tools}}", toolsText);
    ReplaceAbsent(template, "{{tool_names}}", toolNames);
  }

  /** The tool loop of `_build_prompt_with_react_format`. */
  /** One more tool: it is listed exactly when it answers `identity`. */
  lemma IdentifiedSnoc(tools: seq<AgentTool>, i: nat)
    requires i < |tools|
    ensures Identified(tools[..i + 1]) ==
            Identified(tools[..i]) + (if tools[i].tool.hasIdentity then [tools[i].tool] else [])
  {
    assert tools[..i + 1][..i] == tools[..i];
  }

  lemma MapEntriesSnoc(ts: seq<Tool>, t: Tool)
    ensures MapEntries(ts + [t]) == MapEntries(ts) + [ToolEntry(t)]
  {
    assert (ts + [t])[..|ts|] == ts;
  }

  method FormatTools(tools: seq<AgentTool>, includeTools: bool) returns (toolsStr: string, toolNamesStr: string)
    ensures toolsStr == ToolsText(tools, includeTools).0
    ensures toolNamesStr == ToolsText(tools, includeTools).1
  {
    if includeTools && tools != [] {
      var toolsList: seq<string> := [];
      var toolNames: seq<Tool> := [];
      var i := 0;
      while i < |tools|
        invariant 0 <= i <= |tools|
        invariant toolNames == Identified(tools[..i])
        invariant toolsList == MapEntries(toolNames)
      {
        IdentifiedSnoc(tools, i);
        if tools[i].tool.hasIdentity {
          MapEntriesSnoc(toolNames, tools[i].tool);
          toolNames := toolNames + [tools[i].tool];
          toolsList := toolsList + [ToolEntry(tools[i].tool)];
        }
        i := i + 1;
      }
      assert tools[..i] == tools;
      toolsStr := Join("\n", toolsList);
      toolNamesStr := Join(", ", MapQuoted(toolNames));
    } else {
      toolsStr := NoTools;
      toolNamesStr := "";
    }
  }

  /** The scratchpad loop of `_build_prompt_with_react_format`. */
  method FormatScratchpad(units: seq<ScratchpadUnit>) returns (scratchpadStr: string)
    ensures scratchpadStr == RenderScratchpad(units)
  {
    var parts: seq<string> := [];
    var i := 0;
    while i < |units|
      invariant 0 <= i <= |units|
      invariant parts == ScratchpadParts(units[..i])
    {
      assert units[..i + 1][..i] == units[..i];
      var unit := units[i];
      ghost var before := parts;
      ghost var thoughtPart := if unit.thought != "" then ["Thought: " + unit.thought] else [];
      ghost var actionPart := if unit.actionStr != "" then ["Action:\n```\n" + unit.actionStr + "\n```"] else [];
      ghost var observationPart := if unit.observation != "" then ["Observation: " + unit.observation] else [];
      if unit.thought != "" {
        parts := parts + ["Thought: " + unit.thought];
      }
      assert parts == before + thoughtPart;
      if unit.actionStr != "" {
        parts := parts + ["Action:\n```\n" + unit.actionStr + "\n```"];
      }
      assert parts == before + thoughtPart + actionPart;
      if unit.observation != "" {
        parts := parts + ["Observation: " + unit.observation];
      }
      assert parts == before + thoughtPart + actionPart + observationPart;
      AppendAssoc(before, thoughtPart + actionPart, observationPart);
      AppendAssoc(before, thoughtPart, actionPart);
      i := i + 1;
    }
    assert units[..i] == units;
    scratchpadStr := Join("\n", parts);
  }

  method BuildPromptWithReactFormat(original: seq<PromptMessage>, units: seq<ScratchpadUnit>, includeTools: bool,
                                    tools: seq<AgentTool>, template: string)
    returns (messages: seq<PromptMessage>)
    ensures messages == BuildPrompt(original, units, includeTools, tools, template)
  {
    var toolsStr, toolNamesStr := FormatTools(tools, includeTools);
    var scratchpadStr := FormatScratchpad(units);
    var prompt := Replace(template, "{{instruction}}", "");
    prompt := Replace(prompt, "{{tools}}", toolsStr);
    prompt := Replace(prompt, "{{tool_names}}", toolNamesStr);
    messages := [PromptMessage(SystemRole, StrContent(prompt))];
    messages := messages + original;
    if scratchpadStr != "" {
      messages := messages + [PromptMessage(AssistantRole, StrContent(scratchpadStr))];
    }
  }

  // ---------------------------------------------------------------------------
  // Tool calls
  // ---------------------------------------------------------------------------

  predicate Named(t: AgentTool, name: string) {
    t.tool.hasIdentity && t.tool.name == name
  }

  /** The first tool that answers `identity` with the given name. */
  function FirstTool(tools: seq<AgentTool>, name: string): (r: Option<nat>)
    ensures r.Some? ==> r.value < |tools| && Named(tools[r.value], name) &&
                        forall k :: 0 <= k < r.value ==> !Named(tools[k], name)
    ensures r.None? ==> forall k :: 0 <= k < |tools| ==> !Named(tools[k], name)
  {
    if tools == [] then None
    else if Named(tools[0], name) then Some(0)
    else
      var r := FirstTool(tools[1..], name);
      assert forall k :: 1 <= k < |tools| ==> tools[1..][k - 1] == tools[k];
      if r.Some? then Some(r.value + 1) else None
  }

  /** The first built-in file dispatcher among the tools. */
  function FirstDispatcher(tools: seq<AgentTool>): (r: Option<FileDispatcherTool>)
    ensures r.Some? ==> exists k :: 0 <= k < |tools| && tools[k].dispatcher == r
    ensures r.None? ==> forall k :: 0 <= k < |tools| ==> tools[k].dispatcher.None?
  {
    if tools == [] then None
    else if tools[0].dispatcher.Some? then tools[0].dispatcher
    else
      var r := FirstDispatcher(tools[1..]);
      assert forall k :: 1 <= k < |tools| ==> tools[1..][k - 1] == tools[k];
      r
  }

  /** The object-valued arguments of a decoded dictionary. */
  function ObjectOf(fields: map<string, Json>): map<string, ArgValue> {
    map k | k in fields :: JsonArg(fields[k])
  }

  /** The arguments as the tool sees them before file injection: a JSON
      string is decoded (falling back to `{"input": text}`), a dictionary is
      kept, any other value becomes `{"input": str(value)}`. */
  function NormalizeArgs(input: Json, o: Oracles): (r: ToolArgs)
    ensures input.JObject? ==> r == ObjectArgs(ObjectOf(input.fields))
    ensures input.JStr? && o.loads(input.s).None? ==> r == ObjectArgs(map["input" := JsonArg(input)])
    ensures input.JStr? && o.loads(input.s).Some? ==>
              var v := o.loads(input.s).value;
              r == (if v.JObject? then ObjectArgs(ObjectOf(v.fields)) else NonObjectArgs(v))
    ensures !input.JStr? && !input.JObject? ==> r == ObjectArgs(map["input" := JsonArg(JStr(o.str(input)))])
    ensures r.NonObjectArgs? ==> input.JStr? && o.loads(input.s) == Some(r.value) && !r.value.JObject?
  {
    match input
    case JStr(s) =>
      (match o.loads(s)
       case None => ObjectArgs(map["input" := JsonArg(input)])
       case Some(v) => if v.JObject? then ObjectArgs(ObjectOf(v.fields)) else NonObjectArgs(v))
    case JObject(fields) => ObjectArgs(ObjectOf(fields))
    case _ => ObjectArgs(map["input" := JsonArg(JStr(o.str(input)))])
  }

  /** The arguments with the files routed to this tool added: a parameter
      the caller already set is left alone. */
  function Injected(args: map<string, ArgValue>, fileParams: map<string, File>): (r: map<string, ArgValue>)
    ensures r.Keys == args.Keys + fileParams.Keys
    ensures forall p :: p in args ==> r[p] == args[p]
    ensures forall p :: p in fileParams && p !in args ==> r[p] == FileArg(fileParams[p])
  {
    map p | p in args.Keys + fileParams.Keys :: if p in args then args[p] else FileArg(fileParams[p])
  }

  /** The injection loop: one parameter at a time, skipping those present. */
  method InjectFiles(args: map<string, ArgValue>, fileParams: map<string, File>) returns (r: map<string, ArgValue>)
    ensures r == Injected(args, fileParams)
  {
    r := args;
    var remaining := fileParams.Keys;
    while remaining != {}
      invariant remaining <= fileParams.Keys
      invariant r.Keys == args.Keys + (fileParams.Keys - remaining)
      invariant forall p :: p in args ==> r[p] == args[p]
      invariant forall p :: p in fileParams.Keys - remaining && p !in args ==> r[p] == FileArg(fileParams[p])
      decreases remaining
    {
      var paramName :| paramName in remaining;
      if paramName !in r {
        r := r[paramName := FileArg(fileParams[paramName])];
      }
      remaining := remaining - {paramName};
    }
  }

  /** The name of a value's Python type, as a `TypeError` reports it. */
  function TypeName(v: Json): string {
    match v
    case JNull => "NoneType"
    case JBool(_) => "bool"
    case JInt(_) => "int"
    case JStr(_) => "str"
    case JList(_) => "list"
    case JObject(_) => "dict"
  }

  /** `param_name in value` for a decoded value that is not a dictionary:
      a substring test on a string, a membership test on a list, and a
      `TypeError` on anything that cannot be iterated. */
  function ContainsParam(v: Json, p: string): (r: Result<bool>)
    ensures v.JStr? ==> r == Ok(Occurs(v.s, p))
    ensures v.JList? ==> r == Ok(JStr(p) in v.items)
    ensures r.Err? <==> !v.JStr? && !v.JList? && !v.JObject?
  {
    match v
    case JStr(s) => Ok(Contains(s, p))
    case JList(items) => Ok(JStr(p) in items)
    case JObject(fields) => Ok(p in fields)
    case _ => Err(TypeError("argument of type '" + TypeName(v) + "' is not iterable"))
  }

  /** Routing files into arguments that decoded to a value other than a
      dictionary: every parameter the value already "contains" is skipped,
      and the first one it does not contain fails on the item assignment,
      so the value goes to the tool unchanged or the call fails. */
  function ValueInjection(v: Json, fileParams: map<string, File>): (r: Result<ToolArgs>)
    requires !v.JObject?
    ensures r.Ok? <==> forall p :: p in fileParams ==> ContainsParam(v, p) == Ok(true)
    ensures r.Ok? ==> r.value == NonObjectArgs(v)
  {
    if forall p :: p in fileParams ==> ContainsParam(v, p) == Ok(true) then Ok(NonObjectArgs(v))
    else if v.JStr? then Err(TypeError("'str' object does not support item assignment"))
    else if v.JList? then Err(TypeError("list indices must be integers or slices, not str"))
    else Err(TypeError("argument of type '" + TypeName(v) + "' is not iterable"))
  }

  /** The injection loop on a non-dictionary value: one parameter at a time,
      the containment test first and the assignment only when it fails. */
  method InjectIntoValue(v: Json, fileParams: map<string, File>) returns (r: Result<ToolArgs>)
    requires !v.JObject?
    ensures r == ValueInjection(v, fileParams)
  {
    var remaining := fileParams.Keys;
    while remaining != {}
      invariant remaining <= fileParams.Keys
      invariant forall p :: p in fileParams.Keys - remaining ==> ContainsParam(v, p) == Ok(true)
      decreases remaining
    {
      var paramName :| paramName in remaining;
      var present := ContainsParam(v, paramName);
      if present.Err? {
        return Err(present.error);
      }
      if !present.value {
        if v.JStr? {
          return Err(TypeError("'str' object does not support item assignment"));
        }
        return Err(TypeError("list indices must be integers or slices, not str"));
      }
      remaining := remaining - {paramName};
    }
    return Ok(NonObjectArgs(v));
  }

  /** Files routed into a string argument are never added: the call goes
      ahead with the string as it is when every parameter name occurs in
      it, and fails on the assignment otherwise. */
  lemma TextArgumentsTakeNoFiles(f: File)
    ensures ValueInjection(JStr("the path"), map["path" := f]) == Ok(NonObjectArgs(JStr("the path")))
    ensures ValueInjection(JStr("a file"), map["path" := f]).Err?
  {
    assert MatchAt("the path", "path", 4);
    assert !Contains("a file", "path") by {
      assert "a file"[0] != "path"[0] && "a file"[1] != "path"[0] && "a file"[2] != "path"[0];
      assert !ContainsFrom("a file", "path", 3);
    }
    assert ContainsParam(JStr("a file"), "path") == Ok(false);
  }

  /** A list argument is tested for membership and passed on unchanged; a
      number cannot be searched, so the call fails. */
  lemma OtherArgumentsTakeNoFiles(f: File)
    ensures ValueInjection(JList([JStr("path")]), map["path" := f]) == Ok(NonObjectArgs(JList([JStr("path")])))
    ensures ValueInjection(JList([]), map["path" := f]).Err?
    ensures ValueInjection(JInt(3), map["path" := f]).Err?
  {
    assert ContainsParam(JList([]), "path") == Ok(false);
    assert ContainsParam(JInt(3), "path").Err?;
  }

  /** The string-valued arguments, which is what the dispatcher reads. */
  function StringArgs(args: ToolArgs): map<string, string> {
    if args.NonObjectArgs? then map[]
    else map k | k in args.args && args.args[k].JsonArg? && args.args[k].json.JStr? :: args.args[k].json.s
  }

  /** What collecting a tool's responses produces. */
  datatype Collected = Collected(content: string, selfFiles: seq<File>, toolFiles: seq<File>)

  function LoadedNote(f: File): string {
    "File '" + Show(f.filename) + "' has been loaded into your context."
  }

  /** Text is appended to the observation; a file addressed to "self" is
      queued for the model and announced; any other file is a tool output. */
  function Collect(msgs: seq<ToolMessage>): (c: Collected)
    ensures |c.selfFiles| + |c.toolFiles| <= |msgs|
  {
    if msgs == [] then Collected("", [], [])
    else
      var c := Collect(msgs[..|msgs| - 1]);
      match msgs[|msgs| - 1]
      case TextMessage(t) => c.(content := c.content + t)
      case FileMessage(meta) =>
        if meta.file.None? then c
        else if meta.target == Some("self") then
          c.(selfFiles := c.selfFiles + [meta.file.value], content := c.content + LoadedNote(meta.file.value))
        else c.(toolFiles := c.toolFiles + [meta.file.value])
      case OtherMessage => c
  }

  function FileCount(msgs: seq<ToolMessage>): nat {
    if msgs == [] then 0
    else FileCount(msgs[..|msgs| - 1]) + (if msgs[|msgs| - 1].FileMessage? && msgs[|msgs| - 1].meta.file.Some? then 1 else 0)
  }

  /** Every FILE message that carries a file lands in exactly one of the two
      lists. */
  lemma {:induction false} CollectPartitionsFiles(msgs: seq<ToolMessage>)
    ensures |Collect(msgs).selfFiles| + |Collect(msgs).toolFiles| == FileCount(msgs)
  {
    if msgs != [] {
      CollectPartitionsFiles(msgs[..|msgs| - 1]);
    }
  }

  /** A dispatch to "self" loads the file into the next prompt and says so; a
      dispatch to a tool makes the file a tool output. */
  lemma CollectDispatch(f: File, tool: string, param: string)
    ensures Collect([FileMessage(SelfMeta(f))]) == Collected(LoadedNote(f), [f], [])
    ensures Collect([FileMessage(ToolMeta(f, tool, param))]) == Collected("", [], [f])
  {
    assert [FileMessage(SelfMeta(f))][..0] == [];
    assert [FileMessage(ToolMeta(f, tool, param))][..0] == [];
  }

  /** The response loop of `_handle_tool_call`. */
  method CollectResponses(agent: AgentPattern, msgs: seq<ToolMessage>) returns (content: string, toolFiles: seq<File>)
    modifies agent
    ensures content == Collect(msgs).content && toolFiles == Collect(msgs).toolFiles
    ensures agent.files == old(agent.files) + Collect(msgs).selfFiles
  {
    content := "";
    toolFiles := [];
    var i := 0;
    while i < |msgs|
      invariant 0 <= i <= |msgs|
      invariant var c := Collect(msgs[..i]);
                content == c.content && toolFiles == c.toolFiles && agent.files == old(agent.files) + c.selfFiles
    {
      assert msgs[..i + 1][..i] == msgs[..i];
      match msgs[i] {
        case TextMessage(t) =>
          content := content + t;
        case FileMessage(meta) =>
          if meta.file.Some? {
            var file := meta.file.value;
            if meta.target == Some("self") {
              agent.files := agent.files + [file];
              content := content + LoadedNote(file);
            } else {
              toolFiles := toolFiles + [file];
            }
          }
        case OtherMessage =>
      }
      i := i + 1;
    }
    assert msgs[..i] == msgs;
  }

  /** The messages a found tool answers with for the given arguments; the
      file dispatcher is run directly on its string arguments. */
  function Responses(t: AgentTool, name: string, args: ToolArgs, table: Table, o: Oracles): seq<ToolMessage> {
    if t.dispatcher.Some? then Dispatch(t.dispatcher.value.fileMap, StringArgs(args)).messages
    else o.engine(name, args)
  }

  /** The shared map as the tool call reads it. */
  function InjectionSource(tools: seq<AgentTool>): Table
    reads DispatcherMaps(tools)
  {
    var d := FirstDispatcher(tools);
    if d.Some? then
      assert d.value.toolFileMap in DispatcherMaps(tools);
      d.value.toolFileMap.entries
    else map[]
  }

  /** Normalisation and injection: a tool with routed files gets them added
      to its arguments; non-dictionary arguments go through unchanged or fail. */
  function PreparedArgs(input: Json, name: string, table: Table, o: Oracles): Result<ToolArgs> {
    var args := NormalizeArgs(input, o);
    if name in table then
      if args.ObjectArgs? then Ok(ObjectArgs(Injected(args.args, table[name])))
      else ValueInjection(args.value, table[name])
    else Ok(args)
  }

  /** A call never overwrites an argument the model gave explicitly. */
  lemma ExplicitArgumentsWin(fields: map<string, Json>, name: string, table: Table, o: Oracles, p: string)
    requires p in fields
    ensures var r := PreparedArgs(JObject(fields), name, table, o);
            r.Ok? && r.value.ObjectArgs? && r.value.args[p] == JsonArg(fields[p])
  {
  }

  /** The entry a found tool writes into its shared map for the given
      arguments: only the file dispatcher writes, and only on a dispatch to
      another tool. */
  function WriteOf(t: AgentTool, args: ToolArgs): Option<Write> {
    if t.dispatcher.Some? then Dispatch(t.dispatcher.value.fileMap, StringArgs(args)).write else None
  }

  /** Everything `_handle_tool_call` does for a tool it found, up to the
      collected responses: the files queued for the model grow by the files
      addressed to it, and the only shared map that changes is the one of the
      dispatcher that was called, by that dispatcher's one write. */
  method InvokeFoundTool(agent: AgentPattern, t: AgentTool, action: Action, o: Oracles) returns (r: Result<Collected>)
    requires t in agent.tools
    modifies agent, DispatcherMaps(agent.tools)
    ensures var prepared := PreparedArgs(action.input, action.name, old(InjectionSource(agent.tools)), o);
            (prepared.Err? ==> r == Err(prepared.error) && agent.files == old(agent.files)) &&
            (prepared.Ok? ==>
               var msgs := Responses(t, action.name, prepared.value, old(InjectionSource(agent.tools)), o);
               r == Ok(Collect(msgs)) && agent.files == old(agent.files) + Collect(msgs).selfFiles)
    ensures var prepared := PreparedArgs(action.input, action.name, old(InjectionSource(agent.tools)), o);
            forall m :: m in DispatcherMaps(agent.tools) ==>
              m.entries == (if prepared.Ok? && t.dispatcher.Some? && m == t.dispatcher.value.toolFileMap
                            then Apply(old(m.entries), WriteOf(t, prepared.value)) else old(m.entries))
  {
    var toolArgs := NormalizeArgs(action.input, o);
    var table: Table := map[];
    var d := FirstDispatcher(agent.tools);
    if d.Some? {
      assert d.value.toolFileMap in DispatcherMaps(agent.tools);
      table := d.value.toolFileMap.entries;
    }
    if action.name in table {
      if toolArgs.NonObjectArgs? {
        var checked := InjectIntoValue(toolArgs.value, table[action.name]);
        if checked.Err? {
          return Err(checked.error);
        }
      } else {
        var injected := InjectFiles(toolArgs.args, table[action.name]);
        toolArgs := ObjectArgs(injected);
      }
    }
    var msgs: seq<ToolMessage>;
    if t.dispatcher.Some? {
      var dispatcher := t.dispatcher.value;
      ghost var k :| 0 <= k < |agent.tools| && agent.tools[k] == t;
      assert dispatcher.toolFileMap in DispatcherMaps(agent.tools);
      msgs := dispatcher.Invoke(StringArgs(toolArgs));
    } else {
      msgs := o.engine(action.name, toolArgs);
    }
    var content, toolFiles := CollectResponses(agent, msgs);
    return Ok(Collected(content, Collect(msgs).selfFiles, toolFiles));
  }

  /** What a tool call returns to the run: the observation text and the files
      the tool produced. */
  datatype ToolCallResult = ToolCallResult(observation: string, toolFiles: seq<File>)

  const DefaultObservation := "Tool executed successfully"

  function NotFound(name: string): string {
    "Tool " + name + " not found"
  }

  /** A tool call as the run sees it: what it returns, the files it queues
      for the model and the shared map the next call reads. */
  datatype CallOutcome = CallOutcome(result: Result<ToolCallResult>, selfFiles: seq<File>, table: Table)

  /** The map the next call reads after `t` was called with `args`: the call
      changes it only when `t` is a dispatcher that shares it. */
  function TableAfterCall(tools: seq<AgentTool>, t: AgentTool, args: ToolArgs, table: Table): Table {
    var d := FirstDispatcher(tools);
    if t.dispatcher.Some? && d.Some? && t.dispatcher.value.toolFileMap == d.value.toolFileMap
    then Apply(table, WriteOf(t, args))
    else table
  }

  /** The tool call of an action, given the map it reads: an unknown tool is
      reported in the observation, a failed argument preparation fails the
      call before anything happens, and a call that succeeds never has an
      empty observation. */
  function ToolCallOf(tools: seq<AgentTool>, action: Action, table: Table, o: Oracles): (out: CallOutcome)
    ensures FirstTool(tools, action.name).None? ==>
              out == CallOutcome(Ok(ToolCallResult(NotFound(action.name), [])), [], table)
    ensures out.result.Err? ==> out.selfFiles == [] && out.table == table && FirstTool(tools, action.name).Some?
    ensures out.result.Ok? ==> out.result.value.observation != ""
    ensures out.table != table ==>
              FirstTool(tools, action.name).Some? && tools[FirstTool(tools, action.name).value].dispatcher.Some?
  {
    var idx := FirstTool(tools, action.name);
    if idx.None? then CallOutcome(Ok(ToolCallResult(NotFound(action.name), [])), [], table)
    else
      var t := tools[idx.value];
      var prepared := PreparedArgs(action.input, action.name, table, o);
      if prepared.Err? then CallOutcome(Err(prepared.error), [], table)
      else
        var c := Collect(Responses(t, action.name, prepared.value, table, o));
        CallOutcome(Ok(ToolCallResult(if c.content != "" then c.content else DefaultObservation, c.toolFiles)),
                    c.selfFiles, TableAfterCall(tools, t, prepared.value, table))
  }

  /** `_handle_tool_call` as the run evidently intends it: the tool's files
      are handed back to the caller, and an empty observation is replaced by
      a fixed text. The call is `ToolCallOf` of the map as it was before, and
      leaves the map the next call reads as `ToolCallOf` says. */
  method HandleToolCall(agent: AgentPattern, action: Action, o: Oracles) returns (r: Result<ToolCallResult>)
    modifies agent, DispatcherMaps(agent.tools)
    ensures var out := ToolCallOf(agent.tools, action, old(InjectionSource(agent.tools)), o);
            r == out.result && agent.files == old(agent.files) + out.selfFiles &&
            InjectionSource(agent.tools) == out.table
    ensures FirstTool(agent.tools, action.name).None? ==>
              forall m :: m in DispatcherMaps(agent.tools) ==> m.entries == old(m.entries)
    ensures FirstTool(agent.tools, action.name).Some? ==>
              var t := agent.tools[FirstTool(agent.tools, action.name).value];
              var prepared := PreparedArgs(action.input, action.name, old(InjectionSource(agent.tools)), o);
              forall m :: m in DispatcherMaps(agent.tools) ==>
                m.entries == (if prepared.Ok? && t.dispatcher.Some? && m == t.dispatcher.value.toolFileMap
                              then Apply(old(m.entries), WriteOf(t, prepared.value)) else old(m.entries))
  {
    ghost var d := FirstDispatcher(agent.tools);
    if d.Some? {
      assert d.value.toolFileMap in DispatcherMaps(agent.tools);
    }
    var idx := FirstTool(agent.tools, action.name);
    if idx.None? {
      return Ok(ToolCallResult(NotFound(action.name), []));
    }
    var c :- InvokeFoundTool(agent, agent.tools[idx.value], action, o);
    var observation := if c.content != "" then c.content else DefaultObservation;
    return Ok(ToolCallResult(observation, c.toolFiles));
  }

  /** `_handle_tool_call` as written: after collecting the responses it
      extends `files`, a name that exists only in `run`, so every call that
      finds its tool ends in a NameError once the tool has run, with its
      effects on the queued files and the shared maps already made. */
  method HandleToolCallAsWritten(agent: AgentPattern, action: Action, o: Oracles) returns (r: Result<string>)
    modifies agent, DispatcherMaps(agent.tools)
    ensures FirstTool(agent.tools, action.name).None? ==> r == Ok(NotFound(action.name))
    ensures FirstTool(agent.tools, action.name).Some? ==> r.Err?
    ensures FirstTool(agent.tools, action.name).Some? &&
            PreparedArgs(action.input, action.name, old(InjectionSource(agent.tools)), o).Ok? ==>
              r == Err(NameError("files"))
    ensures agent.files == old(agent.files) + ToolCallOf(agent.tools, action, old(InjectionSource(agent.tools)), o).selfFiles
  {
    var idx := FirstTool(agent.tools, action.name);
    if idx.None? {
      return Ok(NotFound(action.name));
    }
    var c :- InvokeFoundTool(agent, agent.tools[idx.value], action, o);
    return Err(NameError("files"));
  }

  // The run
  // ---------------------------------------------------------------------------

  /** One round as it happened: the prompt built for it, the files that were
      pending and attached to it, its scratchpad unit, whether the tools were
      listed, the usage it reported, the files its tool produced, the shared
      map its tool call read, what that call came to (none for a final
      round) and the files left queued for the next round. */
  datatype RoundRecord = RoundRecord(
    prompt: seq<PromptMessage>,
    attached: seq<File>,
    unit: ScratchpadUnit,
    toolsIncluded: bool,
    usage: Option<Tokens>,
    toolFiles: seq<File>,
    table: Table,
    call: Option<CallOutcome>,
    queued: seq<File>)

  datatype AgentResult = AgentResult(text: string, files: seq<File>, usage: Option<Tokens>)

  /** The messages actually sent: pending files are attached first. */
  function Sent(messages: seq<PromptMessage>, pending: seq<File>): seq<PromptMessage> {
    if pending == [] then messages else WithFiles(messages, pending)
  }

  /** The unit of a reply, before its observation, with the thought cleaned. */
  function ThoughtUnit(out: RoundOutput, o: Oracles): (u: ScratchpadUnit)
    ensures u.thought != "" && u.observation == ""
  {
    var u := UnitOf(out.chunks, o);
    u.(thought := CleanThought(u.thought))
  }

  function Units(trace: seq<RoundRecord>): (us: seq<ScratchpadUnit>)
    ensures |us| == |trace|
  {
    if trace == [] then [] else Units(trace[..|trace| - 1]) + [trace[|trace| - 1].unit]
  }

  lemma {:induction false} UnitsEach(trace: seq<RoundRecord>)
    ensures forall k {:trigger Units(trace)[k]} :: 0 <= k < |trace| ==> Units(trace)[k] == trace[k].unit
  {
    if trace != [] {
      UnitsEach(trace[..|trace| - 1]);
    }
  }

  /** Adding one reported usage to a running total. */
  function CombineUsage(before: Option<Tokens>, u: Option<Tokens>): (r: Option<Tokens>)
    ensures r.None? <==> before.None? && u.None?
  {
    if u.None? then before
    else if before.None? then u
    else Some(AddTokens(before.value, u.value))
  }

  /** The usage of all rounds that reported one, or `None` if none did. */
  function SumUsage(trace: seq<RoundRecord>): Option<Tokens> {
    if trace == [] then None else CombineUsage(SumUsage(trace[..|trace| - 1]), trace[|trace| - 1].usage)
  }

  /** The total is the sum of the reported usages, field by field. */
  lemma {:induction false} SumUsageTotals(trace: seq<RoundRecord>)
    requires forall k :: 0 <= k < |trace| ==> trace[k].usage.Some?
    ensures trace != [] ==>
              SumUsage(trace).Some? && SumUsage(trace).value.totalTokens == TotalOf(trace)
  {
    if trace != [] {
      var init := trace[..|trace| - 1];
      assert forall k :: 0 <= k < |init| ==> init[k] == trace[k];
      SumUsageTotals(init);
    }
  }

  function TotalOf(trace: seq<RoundRecord>): int
    requires forall k :: 0 <= k < |trace| ==> trace[k].usage.Some?
  {
    if trace == [] then 0
    else
      var init := trace[..|trace| - 1];
      assert forall k :: 0 <= k < |init| ==> init[k] == trace[k];
      TotalOf(init) + trace[|trace| - 1].usage.value.totalTokens
  }

  function AllToolFiles(trace: seq<RoundRecord>): seq<File> {
    if trace == [] then [] else AllToolFiles(trace[..|trace| - 1]) + trace[|trace| - 1].toolFiles
  }

  /** How many rounds a run may take: one more than the capped iteration
      count, none when that is not positive. */
  function RoundBound(maxIterations: int): nat {
    if maxIterations + 1 > 0 then maxIterations + 1 else 0
  }

  /** However many iterations are asked for, a run takes at most 100 rounds. */
  lemma RoundBoundCapped(requested: int)
    ensures RoundBound(CapIterations(requested)) <= IterationCap + 1
  {
  }

  /** The text of a run: the final answer of its last round when that round
      ended the run, else "". */
  function ResultText(trace: seq<RoundRecord>, o: Oracles): string {
    if trace != [] && IsFinal(trace[|trace| - 1].unit.action) then FinalText(trace[|trace| - 1].unit.action, o) else ""
  }

  /** A round's unit and usage are the model's reply, in round `n`, to the
      round's prompt with the pending files attached. */
  ghost predicate RepliedTo(r: RoundRecord, n: nat, stopList: seq<string>, o: Oracles) {
    var out := o.llm(n, Sent(r.prompt, r.attached), stopList);
    r.unit.(observation := "") == ThoughtUnit(out, o) && r.usage == out.usage
  }

  /** A round whose tool call failed: the failure ends the run. */
  predicate Failed(r: RoundRecord) {
    r.call.Some? && r.call.value.result.Err?
  }

  /** A round after which the run does not go on. */
  predicate Ends(r: RoundRecord) {
    IsFinal(r.unit.action) || Failed(r)
  }

  /** A round's observation, tool files and queued files are those of its
      tool call; a final round calls nothing, and a failed call leaves no
      observation. */
  predicate CallRecorded(r: RoundRecord) {
    if IsFinal(r.unit.action) then
      r.call.None? && r.unit.observation == "" && r.toolFiles == [] && r.queued == []
    else
      r.call.Some? &&
      var out := r.call.value;
      r.queued == out.selfFiles &&
      (out.result.Ok? ==> r.unit.observation == out.result.value.observation && r.toolFiles == out.result.value.toolFiles) &&
      (out.result.Err? ==> r.unit.observation == "" && r.toolFiles == [])
  }

  /** The shared map as the round after `r` reads it. */
  function TableAfter(r: RoundRecord): Table {
    if r.call.Some? then r.call.value.table else r.table
  }

  /** The call a round records is the tool call of its action on the map it
      read. */
  predicate CallMatches(r: RoundRecord, tools: seq<AgentTool>, o: Oracles) {
    r.call.Some? ==> r.unit.action.Some? && r.call.value == ToolCallOf(tools, r.unit.action.value, r.table, o)
  }

  /** Every round of `trace` records the tool call it made. */
  predicate Matched(trace: seq<RoundRecord>, tools: seq<AgentTool>, o: Oracles) {
    forall k {:trigger CallMatches(trace[k], tools, o)} :: 0 <= k < |trace| ==> CallMatches(trace[k], tools, o)
  }

  lemma MatchedSnoc(trace: seq<RoundRecord>, r: RoundRecord, tools: seq<AgentTool>, o: Oracles)
    requires Matched(trace, tools, o) && CallMatches(r, tools, o)
    ensures Matched(trace + [r], tools, o)
  {
    var t := trace + [r];
    forall k | 0 <= k < |t|
      ensures CallMatches(t[k], tools, o)
    {
      if k < |trace| {
        assert t[k] == trace[k];
        assert CallMatches(trace[k], tools, o);
      }
    }
  }

  /** Round `k` of a trace: its prompt lists the tools except on the last
      allowed round and carries the scratchpad of the rounds before it; its
      unit is what the model replied to that prompt with the pending files
      attached; and after the first round, the attached files are those the
      round before left queued. */
  ghost predicate RoundOk(trace: seq<RoundRecord>, k: nat, setup: RunSetup, o: Oracles)
    requires k < |trace|
  {
    var r := trace[k];
    r.toolsIncluded == (k != setup.maxIterations) &&
    r.prompt == BuildPrompt(setup.original, Units(trace[..k]), r.toolsIncluded, setup.tools, setup.template) &&
    RepliedTo(r, k, StopWithObservation(setup.stop), o) &&
    (k > 0 ==> r.attached == trace[k - 1].queued)
  }

  /** The tool calls of a trace: every round records its own call, and every
      round after the first calls on the map the round before left. */
  predicate Calls(trace: seq<RoundRecord>)
    decreases |trace|
  {
    trace != [] ==>
      var init := trace[..|trace| - 1];
      var r := trace[|trace| - 1];
      Calls(init) && CallRecorded(r) &&
      (init != [] ==> r.table == TableAfter(init[|init| - 1]))
  }

  /** What `Calls` says of each round. */
  lemma {:induction false} CallsEach(trace: seq<RoundRecord>, k: nat)
    requires Calls(trace) && k < |trace|
    ensures CallRecorded(trace[k])
    ensures k > 0 ==> trace[k].table == TableAfter(trace[k - 1])
  {
    var init := trace[..|trace| - 1];
    if k < |trace| - 1 {
      CallsEach(init, k);
      assert init[k] == trace[k];
      assert k > 0 ==> init[k - 1] == trace[k - 1];
    } else if k > 0 {
      assert init[|init| - 1] == trace[k - 1];
    }
  }

  lemma CallsSnoc(trace: seq<RoundRecord>, r: RoundRecord)
    requires Calls(trace) && CallRecorded(r)
    requires trace != [] ==> r.table == TableAfter(trace[|trace| - 1])
    ensures Calls(trace + [r])
  {
    assert (trace + [r])[..|trace|] == trace;
  }

  /** What a run is given besides the agent's mutable state. */
  datatype RunSetup = RunSetup(
    original: seq<PromptMessage>,
    stop: seq<string>,
    template: string,
    tools: seq<AgentTool>,
    maxIterations: int)

  /** Every round of `trace` is as `RoundOk` describes. */
  ghost predicate Rounds(trace: seq<RoundRecord>, setup: RunSetup, o: Oracles) {
    forall k :: 0 <= k < |trace| ==> RoundOk(trace, k, setup, o)
  }

  /** Whether a round is well formed depends only on the rounds up to it. */
  lemma RoundOkPrefix(trace: seq<RoundRecord>, init: seq<RoundRecord>, k: nat, setup: RunSetup, o: Oracles)
    requires init <= trace && k < |init| && RoundOk(init, k, setup, o)
    ensures RoundOk(trace, k, setup, o)
  {
    assert init[..k] == trace[..k];
    assert init[k] == trace[k];
    assert k > 0 ==> init[k - 1] == trace[k - 1];
  }

  /** A round that fits the rounds before it is well formed after them. */
  lemma RoundOkLast(trace: seq<RoundRecord>, r: RoundRecord, setup: RunSetup, o: Oracles)
    requires r.toolsIncluded == (|trace| != setup.maxIterations)
    requires r.prompt == BuildPrompt(setup.original, Units(trace), r.toolsIncluded, setup.tools, setup.template)
    requires RepliedTo(r, |trace|, StopWithObservation(setup.stop), o)
    requires trace != [] ==> r.attached == trace[|trace| - 1].queued
    ensures RoundOk(trace + [r], |trace|, setup, o)
  {
    var t := trace + [r];
    assert t[..|trace|] == trace && t[|trace|] == r;
    if trace != [] {
      assert t[|trace| - 1] == trace[|trace| - 1];
    }
  }

  lemma RoundsSnoc(trace: seq<RoundRecord>, r: RoundRecord, setup: RunSetup, o: Oracles)
    requires Rounds(trace, setup, o)
    requires r.toolsIncluded == (|trace| != setup.maxIterations)
    requires r.prompt == BuildPrompt(setup.original, Units(trace), r.toolsIncluded, setup.tools, setup.template)
    requires RepliedTo(r, |trace|, StopWithObservation(setup.stop), o)
    requires trace != [] ==> r.attached == trace[|trace| - 1].queued
    ensures Rounds(trace + [r], setup, o)
  {
    var t := trace + [r];
    forall k | 0 <= k < |t|
      ensures RoundOk(t, k, setup, o)
    {
      if k < |trace| {
        RoundOkPrefix(t, trace, k, setup, o);
      } else {
        RoundOkLast(trace, r, setup, o);
      }
    }
  }

  /** No round of `trace` ended the run. */
  predicate NoneEnded(trace: seq<RoundRecord>)
    decreases |trace|
  {
    trace != [] ==> NoneEnded(trace[..|trace| - 1]) && !Ends(trace[|trace| - 1])
  }

  lemma {:induction false} NoneEndedEach(trace: seq<RoundRecord>, k: nat)
    requires NoneEnded(trace) && k < |trace|
    ensures !Ends(trace[k])
  {
    if k < |trace| - 1 {
      var init := trace[..|trace| - 1];
      NoneEndedEach(init, k);
      assert init[k] == trace[k];
    }
  }

  /** The rounds of a run that did not end it: all of them, or all but the
      last once the run is over. */
  function Continued(trace: seq<RoundRecord>, done: bool): seq<RoundRecord> {
    if done && trace != [] then trace[..|trace| - 1] else trace
  }

  lemma NoneEndedSnoc(trace: seq<RoundRecord>, r: RoundRecord)
    requires NoneEnded(trace)
    ensures Continued(trace + [r], true) == trace
    ensures !Ends(r) ==> NoneEnded(trace + [r])
  {
    assert (trace + [r])[..|trace|] == trace;
  }

  lemma TraceSnoc(trace: seq<RoundRecord>, r: RoundRecord)
    ensures (trace + [r])[..|trace|] == trace
    ensures Units(trace + [r]) == Units(trace) + [r.unit]
    ensures AllToolFiles(trace + [r]) == AllToolFiles(trace) + r.toolFiles
    ensures SumUsage(trace + [r]) == CombineUsage(SumUsage(trace), r.usage)
  {
    assert (trace + [r])[..|trace|] == trace;
  }

  /** Every round after the first is prompted with the scratchpad of the
      rounds before it. */
  lemma LaterRoundsCarryScratchpad(trace: seq<RoundRecord>, setup: RunSetup, o: Oracles, k: nat)
    requires Rounds(trace, setup, o) && 0 < k < |trace|
    ensures |trace[k].prompt| == |setup.original| + 2
  {
    assert RoundOk(trace, k, setup, o) && RoundOk(trace, 0, setup, o);
    UnitsEach(trace[..k]);
    assert Units(trace[..k])[0] == trace[0].unit;
    PromptCarriesScratchpad(setup.original, Units(trace[..k]), trace[k].toolsIncluded, setup.tools, setup.template);
  }

  function UsageValue(total: UsageTotal): Option<Tokens>
    reads total, total.usage
  {
    if total.usage == null then None else Some(total.usage.Value())
  }

  /** One round of `run`'s loop, as far as the rounds so far are concerned:
      the state before the round, the round's record and the state after
      it, as `run` keeps them. */
  lemma Advance(trace: seq<RoundRecord>, units: seq<ScratchpadUnit>, files: seq<File>, finalText: string,
                iterationStep: int, r: RoundRecord,
                trace': seq<RoundRecord>, units': seq<ScratchpadUnit>, files': seq<File>, finalText': string,
                done': bool, current': seq<PromptMessage>, iterationStep': int, setup: RunSetup, o: Oracles)
    requires units == Units(trace) && files == AllToolFiles(trace) && finalText == ResultText(trace, o)
    requires Rounds(trace + [r], setup, o) && NoneEnded(trace) && |trace| == iterationStep - 1
    requires CallRecorded(r)
    requires trace' == trace + [r] && units' == units + [r.unit] && done' == Ends(r)
    requires done' ==> files' == files && iterationStep' == iterationStep &&
                       finalText' == (if IsFinal(r.unit.action) && r.unit.action.Some? && JsonTruthy(r.unit.action.value.input)
                                      then AnswerText(r.unit.action.value.input, o) else finalText)
    requires !done' ==> files' == files + r.toolFiles && finalText' == finalText && iterationStep' == iterationStep + 1 &&
                        current' == BuildPrompt(setup.original, units', true, setup.tools, setup.template)
    ensures units' == Units(trace') && files' == AllToolFiles(trace') && finalText' == ResultText(trace', o)
    ensures Rounds(trace', setup, o)
    ensures !done' ==> NoneEnded(trace')
    ensures done' ==> NoneEnded(trace'[..|trace'| - 1]) && Ends(trace'[|trace'| - 1])
    ensures |trace'| == |trace| + 1 && |trace'| == iterationStep' - 1 + (if done' then 1 else 0)
    ensures trace'[0] == (if trace == [] then r else trace[0])
    ensures SumUsage(trace') == CombineUsage(SumUsage(trace), r.usage)
  {
    TraceSnoc(trace, r);
    assert RoundOk(trace', |trace|, setup, o);
    NoneEndedSnoc(trace, r);
  }

  /** The usage update of a round: a reported usage is stored, or added into
      the stored one. */
  method RecordUsage(total: UsageTotal, reported: Option<Tokens>)
    modifies total, total.usage
    ensures UsageValue(total) == CombineUsage(old(UsageValue(total)), reported)
    ensures total.usage == old(total.usage) || fresh(total.usage)
  {
    if reported.Some? {
      var delta := new LLMUsage(reported.value);
      AccumulateUsage(total, delta);
    }
  }

  /** The thinking half of a round: attach the pending files, ask the model,
      read its reply into a unit and record the usage. */
  method Think(agent: AgentPattern, current: seq<PromptMessage>, n: nat, stopList: seq<string>,
               total: UsageTotal, o: Oracles)
    returns (attached: seq<File>, unit: ScratchpadUnit, reported: Option<Tokens>)
    modifies agent, total, total.usage
    ensures attached == old(agent.files) && agent.files == []
    ensures InjectionSource(agent.tools) == old(InjectionSource(agent.tools))
    ensures var out := o.llm(n, Sent(current, attached), stopList);
            unit == ThoughtUnit(out, o) && reported == out.usage
    ensures UsageValue(total) == CombineUsage(old(UsageValue(total)), reported)
    ensures total.usage == old(total.usage) || fresh(total.usage)
  {
    attached := agent.files;
    var messagesToUse := agent.PrepareMessagesWithFiles(current);
    var output := o.llm(n, messagesToUse, stopList);
    unit := ProcessChunks(output.chunks, o);
    RecordUsage(total, output.usage);
    reported := output.usage;
    unit := unit.(thought := CleanThought(unit.thought));
  }

  /** One round of `run` after its prompt is built: think, and unless the
      reply is final, call the tool on the shared map as it stands and record
      its observation. A failing tool call is returned as `failure`, with no
      observation recorded. */
  method PlayRound(agent: AgentPattern, current: seq<PromptMessage>, n: nat, includeTools: bool,
                   stopList: seq<string>, total: UsageTotal, o: Oracles, ghost trace: seq<RoundRecord>)
    returns (record: RoundRecord, failure: Option<Error>)
    requires Matched(trace, agent.tools, o)
    modifies agent, DispatcherMaps(agent.tools), total, total.usage
    ensures record.prompt == current && record.toolsIncluded == includeTools
    ensures record.attached == old(agent.files) && record.table == old(InjectionSource(agent.tools))
    ensures RepliedTo(record, n, stopList, o)
    ensures CallRecorded(record) && Matched(trace + [record], agent.tools, o)
    ensures agent.files == record.queued && InjectionSource(agent.tools) == TableAfter(record)
    ensures failure.Some? <==> Failed(record)
    ensures failure.Some? ==> failure.value == record.call.value.result.error
    ensures UsageValue(total) == CombineUsage(old(UsageValue(total)), record.usage)
    ensures total.usage == old(total.usage) || fresh(total.usage)
  {
    var attached, scratchpad, reported := Think(agent, current, n, stopList, total, o);
    var table := InjectionSource(agent.tools);
    failure := None;
    var toolFiles: seq<File> := [];
    var call: Option<CallOutcome> := None;
    if !IsFinal(scratchpad.action) {
      var called := HandleToolCall(agent, scratchpad.action.value, o);
      call := Some(CallOutcome(called, agent.files, InjectionSource(agent.tools)));
      if called.Err? {
        failure := Some(called.error);
      } else {
        scratchpad := scratchpad.(observation := called.value.observation);
        toolFiles := called.value.toolFiles;
      }
    }
    record := RoundRecord(current, attached, scratchpad, includeTools, reported, toolFiles, table, call, agent.files);
    MatchedSnoc(trace, record, agent.tools, o);
  }

  /** The bookkeeping after a round: record it, and either end the run with
      the round's final answer or its failure, or extend the scratchpad and
      the tool files and rebuild the prompt for the next round. */
  method Settle(current: seq<PromptMessage>, iterationStep: int, units: seq<ScratchpadUnit>, files: seq<File>,
                finalText: string, trace: seq<RoundRecord>, record: RoundRecord, failed: bool, setup: RunSetup, o: Oracles)
    returns (current': seq<PromptMessage>, iterationStep': int, units': seq<ScratchpadUnit>, files': seq<File>,
             finalText': string, done: bool, trace': seq<RoundRecord>)
    requires LoopState(setup, o, iterationStep, false, trace, units, files, finalText, current)
    requires iterationStep <= setup.maxIterations + 1
    requires record.toolsIncluded == (|trace| != setup.maxIterations)
    requires record.prompt == BuildPrompt(setup.original, units, record.toolsIncluded, setup.tools, setup.template)
    requires RepliedTo(record, |trace|, StopWithObservation(setup.stop), o)
    requires CallRecorded(record)
    requires trace != [] ==> record.attached == trace[|trace| - 1].queued &&
                             record.table == TableAfter(trace[|trace| - 1])
    requires failed == Failed(record)
    ensures LoopState(setup, o, iterationStep', done, trace', units', files', finalText', current')
    ensures done == Ends(record) && iterationStep' == iterationStep + (if done then 0 else 1)
    ensures trace' == trace + [record]
    ensures SumUsage(trace') == CombineUsage(SumUsage(trace), record.usage)
  {
    RoundsSnoc(trace, record, setup, o);
    CallsSnoc(trace, record);
    trace' := trace + [record];
    units' := units + [record.unit];
    files', finalText', current', iterationStep' := files, finalText, current, iterationStep;
    if IsFinal(record.unit.action) {
      var action := record.unit.action;
      if action.Some? && JsonTruthy(action.value.input) {
        finalText' := AnswerText(action.value.input, o);
      }
      done := true;
    } else if failed {
      done := true;
    } else {
      files' := files + record.toolFiles;
      current' := BuildPromptWithReactFormat(setup.original, units', true, setup.tools, setup.template);
      iterationStep' := iterationStep + 1;
      done := false;
    }
    Advance(trace, units, files, finalText, iterationStep, record,
            trace', units', files', finalText', done, current', iterationStep', setup, o);
  }

  /** The prompt of a round: the current one, except that the last allowed
      round is prompted again without the tools. */
  method RoundPrompt(current: seq<PromptMessage>, original: seq<PromptMessage>, units: seq<ScratchpadUnit>,
                     includeTools: bool, tools: seq<AgentTool>, template: string)
    returns (prompt: seq<PromptMessage>)
    requires current == BuildPrompt(original, units, true, tools, template)
    ensures prompt == BuildPrompt(original, units, includeTools, tools, template)
  {
    prompt := current;
    if !includeTools {
      prompt := BuildPromptWithReactFormat(original, units, false, tools, template);
    }
  }

  /** The agent's mutable state as the rounds of `trace` left it: the files
      the last round queued and the map its call left, or the state the run
      started from. */
  predicate Synced(trace: seq<RoundRecord>, files: seq<File>, table: Table,
                   files0: seq<File>, table0: Table)
  {
    if trace == [] then files == files0 && table == table0
    else files == trace[|trace| - 1].queued && table == TableAfter(trace[|trace| - 1])
  }

  /** The round `run` plays next: the last allowed round drops the tool
      instructions from the prompt, and the round reads the files and the
      shared map the rounds before it left. */
  method PlayNext(agent: AgentPattern, current: seq<PromptMessage>, iterationStep: int, stopList: seq<string>,
                  llmUsage: UsageTotal, o: Oracles, trace: seq<RoundRecord>, setup: RunSetup,
                  ghost files0: seq<File>, ghost table0: Table)
    returns (record: RoundRecord, failure: Option<Error>)
    requires setup.tools == agent.tools && setup.maxIterations == agent.maxIterations
    requires stopList == StopWithObservation(setup.stop)
    requires |trace| == iterationStep - 1
    requires current == BuildPrompt(setup.original, Units(trace), true, setup.tools, setup.template)
    requires Synced(trace, agent.files, InjectionSource(agent.tools), files0, table0)
    requires Matched(trace, agent.tools, o)
    modifies agent, DispatcherMaps(agent.tools), llmUsage, llmUsage.usage
    ensures record.toolsIncluded == (|trace| != setup.maxIterations)
    ensures record.prompt == BuildPrompt(setup.original, Units(trace), record.toolsIncluded, setup.tools, setup.template)
    ensures RepliedTo(record, |trace|, stopList, o)
    ensures CallRecorded(record) && Matched(trace + [record], agent.tools, o)
    ensures trace != [] ==> record.attached == trace[|trace| - 1].queued &&
                            record.table == TableAfter(trace[|trace| - 1])
    ensures trace == [] ==> record.attached == files0 && record.table == table0
    ensures agent.files == record.queued && InjectionSource(agent.tools) == TableAfter(record)
    ensures failure.Some? <==> Failed(record)
    ensures failure.Some? ==> failure.value == record.call.value.result.error
    ensures UsageValue(llmUsage) == CombineUsage(old(UsageValue(llmUsage)), record.usage)
    ensures llmUsage.usage == old(llmUsage.usage) || fresh(llmUsage.usage)
  {
    var includeTools := iterationStep != agent.maxIterations + 1;
    var prompt := RoundPrompt(current, setup.original, Units(trace), includeTools, setup.tools, setup.template);
    record, failure := PlayRound(agent, prompt, iterationStep - 1, includeTools, stopList, llmUsage, o, trace);
  }

  /** One pass of the loop in `run`: play the next round and settle it into
      the loop's state. */
  method Iterate(agent: AgentPattern, current: seq<PromptMessage>, iterationStep: int, units: seq<ScratchpadUnit>,
                 files: seq<File>, finalText: string, stopList: seq<string>, llmUsage: UsageTotal, o: Oracles,
                 trace: seq<RoundRecord>, setup: RunSetup, ghost files0: seq<File>, ghost table0: Table)
    returns (current': seq<PromptMessage>, iterationStep': int, units': seq<ScratchpadUnit>, files': seq<File>,
             finalText': string, done: bool, failure: Option<Error>, trace': seq<RoundRecord>, record: RoundRecord)
    requires setup.tools == agent.tools && setup.maxIterations == agent.maxIterations
    requires stopList == StopWithObservation(setup.stop)
    requires LoopState(setup, o, iterationStep, false, trace, units, files, finalText, current)
    requires iterationStep <= setup.maxIterations + 1
    requires UsageValue(llmUsage) == SumUsage(trace)
    requires Synced(trace, agent.files, InjectionSource(agent.tools), files0, table0)
    requires Matched(trace, agent.tools, o)
    modifies agent, DispatcherMaps(agent.tools), llmUsage, llmUsage.usage
    ensures LoopState(setup, o, iterationStep', done, trace', units', files', finalText', current')
    ensures Matched(trace + [record], agent.tools, o)
    ensures iterationStep' == iterationStep + (if done then 0 else 1)
    ensures trace' == trace + [record]
    ensures trace == [] ==> record.attached == files0 && record.table == table0
    ensures agent.files == record.queued && InjectionSource(agent.tools) == TableAfter(record)
    ensures failure.Some? <==> Failed(record)
    ensures failure.Some? ==> failure.value == record.call.value.result.error
    ensures UsageValue(llmUsage) == SumUsage(trace')
    ensures llmUsage.usage == old(llmUsage.usage) || fresh(llmUsage.usage)
  {
    record, failure := PlayNext(agent, current, iterationStep, stopList, llmUsage, o, trace, setup, files0, table0);
    current', iterationStep', units', files', finalText', done, trace' :=
      Settle(current, iterationStep, units, files, finalText, trace, record, failure.Some?, setup, o);
  }

  /** One pass of the loop in `run`, as the loop keeps its state. */
  method Step(agent: AgentPattern, current: seq<PromptMessage>, iterationStep: int, units: seq<ScratchpadUnit>,
              files: seq<File>, finalText: string, stopList: seq<string>, llmUsage: UsageTotal, o: Oracles,
              trace: seq<RoundRecord>, setup: RunSetup, ghost files0: seq<File>, ghost table0: Table)
    returns (current': seq<PromptMessage>, iterationStep': int, units': seq<ScratchpadUnit>, files': seq<File>,
             finalText': string, done: bool, failure: Option<Error>, trace': seq<RoundRecord>)
    requires setup.tools == agent.tools && setup.maxIterations == agent.maxIterations
    requires stopList == StopWithObservation(setup.stop)
    requires LoopState(setup, o, iterationStep, false, trace, units, files, finalText, current)
    requires iterationStep <= setup.maxIterations + 1
    requires UsageValue(llmUsage) == SumUsage(trace)
    requires Synced(trace, agent.files, InjectionSource(agent.tools), files0, table0)
    requires Matched(trace, agent.tools, o)
    requires trace != [] ==> trace[0].attached == files0 && trace[0].table == table0
    modifies agent, DispatcherMaps(agent.tools), llmUsage, llmUsage.usage
    ensures LoopState(setup, o, iterationStep', done, trace', units', files', finalText', current')
    ensures Synced(trace', agent.files, InjectionSource(agent.tools), files0, table0)
    ensures Matched(trace', agent.tools, o)
    ensures trace' != [] ==> trace'[0].attached == files0 && trace'[0].table == table0
    ensures failure.Some? <==> trace' != [] && Failed(trace'[|trace'| - 1])
    ensures failure.Some? ==> failure.value == trace'[|trace'| - 1].call.value.result.error
    ensures llmUsage.usage == old(llmUsage.usage) || fresh(llmUsage.usage)
    ensures UsageValue(llmUsage) == SumUsage(trace')
    ensures iterationStep' == iterationStep + (if done then 0 else 1)
  {
    var record;
    current', iterationStep', units', files', finalText', done, failure, trace', record :=
      Iterate(agent, current, iterationStep, units, files, finalText, stopList, llmUsage, o, trace, setup,
              files0, table0);
    assert trace'[|trace'| - 1] == record && (trace != [] ==> trace'[0] == trace[0]);
  }

  /** What the loop of `run` keeps: the step counts the rounds played, the
      rounds are legal and the accumulators are functions of them, only the
      last round may have ended the run, and while it goes on the next prompt
      is the one for the scratchpad so far. */
  ghost predicate LoopState(setup: RunSetup, o: Oracles, iterationStep: int, done: bool, trace: seq<RoundRecord>,
                            units: seq<ScratchpadUnit>, files: seq<File>, finalText: string,
                            current: seq<PromptMessage>)
  {
    1 <= iterationStep <= RoundBound(setup.maxIterations) + 1 &&
    |trace| == iterationStep - 1 + (if done then 1 else 0) && |trace| <= RoundBound(setup.maxIterations) &&
    units == Units(trace) && files == AllToolFiles(trace) && finalText == ResultText(trace, o) &&
    Rounds(trace, setup, o) && Calls(trace) &&
    (!done ==> NoneEnded(trace) &&
               current == BuildPrompt(setup.original, units, true, setup.tools, setup.template)) &&
    (done ==> NoneEnded(trace[..|trace| - 1]) && Ends(trace[|trace| - 1]))
  }

  /** However the loop of `run` stops, no round before the last ended the
      run, and it stopped at a final answer, at a failed tool call or at the
      round bound. */
  lemma Stopped(setup: RunSetup, o: Oracles, iterationStep: int, done: bool, trace: seq<RoundRecord>,
                units: seq<ScratchpadUnit>, files: seq<File>, finalText: string, current: seq<PromptMessage>)
    requires LoopState(setup, o, iterationStep, done, trace, units, files, finalText, current)
    ensures NoneEnded(Continued(trace, true))
    ensures done || iterationStep > setup.maxIterations + 1 ==>
              |trace| == RoundBound(setup.maxIterations) || (trace != [] && Ends(trace[|trace| - 1]))
  {
  }

  /** The loop of `run`: rounds until the model gives a final answer, a
      tool call fails or the round bound is reached, with the usage of every
      round added into `llmUsage`. */
  method PlayRounds(agent: AgentPattern, setup: RunSetup, stopList: seq<string>, llmUsage: UsageTotal, o: Oracles)
    returns (trace: seq<RoundRecord>, failure: Option<Error>, files: seq<File>, finalText: string)
    requires setup.tools == agent.tools && setup.maxIterations == agent.maxIterations
    requires stopList == StopWithObservation(setup.stop)
    requires llmUsage.usage == null
    modifies agent, DispatcherMaps(agent.tools), llmUsage
    ensures Rounds(trace, setup, o) && Calls(trace) && Matched(trace, agent.tools, o)
    ensures trace != [] ==> trace[0].attached == old(agent.files) && trace[0].table == old(InjectionSource(agent.tools))
    ensures Synced(trace, agent.files, InjectionSource(agent.tools), old(agent.files), old(InjectionSource(agent.tools)))
    ensures |trace| <= RoundBound(setup.maxIterations)
    ensures NoneEnded(Continued(trace, true))
    ensures failure.Some? <==> trace != [] && Failed(trace[|trace| - 1])
    ensures failure.Some? ==> failure.value == trace[|trace| - 1].call.value.result.error
    ensures failure.None? ==> |trace| == RoundBound(setup.maxIterations) || (trace != [] && IsFinal(trace[|trace| - 1].unit.action))
    ensures finalText == ResultText(trace, o) && files == AllToolFiles(trace) && UsageValue(llmUsage) == SumUsage(trace)
  {
    ghost var files0 := agent.files;
    ghost var table0 := InjectionSource(agent.tools);
    var units: seq<ScratchpadUnit> := [];
    var iterationStep := 1;
    var maxIterations := agent.maxIterations + 1;
    files := [];
    finalText := "";
    var current := BuildPromptWithReactFormat(setup.original, units, true, agent.tools, setup.template);
    trace := [];
    var done := false;
    failure := None;
    while iterationStep <= maxIterations && !done
      invariant LoopState(setup, o, iterationStep, done, trace, units, files, finalText, current)
      invariant Synced(trace, agent.files, InjectionSource(agent.tools), files0, table0)
      invariant Matched(trace, agent.tools, o)
      invariant trace != [] ==> trace[0].attached == files0 && trace[0].table == table0
      invariant failure.Some? <==> trace != [] && Failed(trace[|trace| - 1])
      invariant failure.Some? ==> failure.value == trace[|trace| - 1].call.value.result.error
      invariant llmUsage.usage == null || fresh(llmUsage.usage)
      invariant UsageValue(llmUsage) == SumUsage(trace)
      decreases maxIterations - iterationStep + (if done then 0 else 1)
    {
      current, iterationStep, units, files, finalText, done, failure, trace :=
        Step(agent, current, iterationStep, units, files, finalText, stopList, llmUsage, o, trace, setup,
             files0, table0);
    }
    Stopped(setup, o, iterationStep, done, trace, units, files, finalText, current);
  }

  /** `run`: the rounds of its loop, then the failure of the last round's
      tool call, or the answer, the tool files and the usage of all rounds. */
  method Run(agent: AgentPattern, promptMessages: seq<PromptMessage>, stop: seq<string>, template: string, o: Oracles)
    returns (r: Result<AgentResult>, trace: seq<RoundRecord>)
    modifies agent, DispatcherMaps(agent.tools)
    ensures Rounds(trace, RunSetup(promptMessages, stop, template, agent.tools, agent.maxIterations), o)
    ensures Calls(trace) && Matched(trace, agent.tools, o)
    ensures trace != [] ==> trace[0].attached == old(agent.files) && trace[0].table == old(InjectionSource(agent.tools))
    ensures Synced(trace, agent.files, InjectionSource(agent.tools), old(agent.files), old(InjectionSource(agent.tools)))
    ensures |trace| <= RoundBound(agent.maxIterations)
    ensures NoneEnded(Continued(trace, true))
    ensures r.Err? <==> trace != [] && Failed(trace[|trace| - 1])
    ensures r.Err? ==> r.error == trace[|trace| - 1].call.value.result.error
    ensures r.Ok? ==> |trace| == RoundBound(agent.maxIterations) || (trace != [] && IsFinal(trace[|trace| - 1].unit.action))
    ensures r.Ok? ==> r.value == AgentResult(ResultText(trace, o), AllToolFiles(trace), SumUsage(trace))
  {
    var setup := RunSetup(promptMessages, stop, template, agent.tools, agent.maxIterations);
    var stopList := StopWithObservation(stop);
    var llmUsage := new UsageTotal();
    var failure, files, finalText;
    trace, failure, files, finalText := PlayRounds(agent, setup, stopList, llmUsage, o);
    if failure.Some? {
      r := Err(failure.value);
    } else {
      var usage := if llmUsage.usage == null then None else Some(llmUsage.usage.Value());
      r := Ok(AgentResult(finalText, files, usage));
    }
  }
}
