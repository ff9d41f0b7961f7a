/** The `dispatch_file` agent tool: an index of the files an agent may use, and
    the routing step that either hands a file to the model ("self") or records
    it in a map shared with the agent loop, `{tool name: {parameter: file}}`,
    from which later calls of that tool take their file arguments. */
module FileDispatcher {
  import opened Common
  import opened ToolEntities

  // ---------------------------------------------------------------------------
  // The file index
  // ---------------------------------------------------------------------------

  /** `{f.filename: f for f in files}`, restricted to files that have a name
      (a file without one is stored under `None`, which no lookup by a
      non-empty id can reach). Later files overwrite earlier ones. */
  function FileIndex(files: seq<File>): (m: map<string, File>)
    ensures forall name :: name in m <==> exists i :: 0 <= i < |files| && files[i].filename == Some(name)
    ensures forall name :: name in m ==> m[name].filename == Some(name)
  {
    if files == [] then map[]
    else
      var m := FileIndex(files[..|files| - 1]);
      var f := files[|files| - 1];
      assert forall i :: 0 <= i < |files| - 1 ==> files[..|files| - 1][i] == files[i];
      if f.filename.Some? then m[f.filename.value := f] else m
  }

  /** With duplicate names the last file of that name is the one indexed. */
  lemma {:induction false} FileIndexLastWins(files: seq<File>, i: nat)
    requires i < |files| && files[i].filename.Some?
    requires forall j :: i < j < |files| ==> files[j].filename != files[i].filename
    ensures FileIndex(files)[files[i].filename.value] == files[i]
  {
    if i < |files| - 1 {
      var init := files[..|files| - 1];
      assert forall j :: i < j < |init| ==> init[j] == files[j];
      FileIndexLastWins(init, i);
    }
  }

  /** One entry of the `file_id` parameter's option list. */
  datatype ParameterOption = ParameterOption(value: string, labelText: string)

  /** `value=f.filename or ""`, label `"<name> (<type>, <size or 0> bytes)"`. */
  function OptionFor(f: File): (o: ParameterOption)
    ensures o.value == "" <==> f.filename.None? || f.filename == Some("")
    ensures f.filename.Some? ==> o.value == f.filename.value
    ensures StartsWith(o.labelText, Show(f.filename) + " (")
  {
    var size := if f.size.Some? then f.size.value else 0;
    var prefix := Show(f.filename) + " (";
    var text := prefix + TypeText(f) + ", " + IntToString(size) + " bytes)";
    assert text[..|prefix|] == prefix;
    ParameterOption(if f.filename.Some? then f.filename.value else "", text)
  }

  function Options(files: seq<File>): (os: seq<ParameterOption>)
    ensures |os| == |files|
    ensures forall i :: 0 <= i < |files| ==> os[i] == OptionFor(files[i])
  {
    if files == [] then [] else [OptionFor(files[0])] + Options(files[1..])
  }

  /** The ids offered to the model are exactly the ids the dispatcher can
      resolve. */
  lemma OptionValuesAreIndexed(files: seq<File>, id: string)
    requires id != ""
    ensures id in FileIndex(files) ==> exists i :: 0 <= i < |files| && Options(files)[i].value == id
    ensures id !in FileIndex(files) ==> forall i :: 0 <= i < |files| ==> Options(files)[i].value != id
  {
    if id in FileIndex(files) {
      var i :| 0 <= i < |files| && files[i].filename == Some(id);
      assert Options(files)[i] == OptionFor(files[i]);
    } else {
      forall i | 0 <= i < |files|
        ensures Options(files)[i].value != id
      {
        assert Options(files)[i] == OptionFor(files[i]);
        assert files[i].filename != Some(id);
      }
    }
  }

  // ---------------------------------------------------------------------------
  // The shared tool-file map
  // ---------------------------------------------------------------------------

  type Table = map<string, map<string, File>>

  /** `table[tool][param] = file`, creating the inner dictionary when absent. */
  function Put(table: Table, tool: string, param: string, f: File): (r: Table)
    ensures tool in r && param in r[tool] && r[tool][param] == f
    ensures forall t :: t != tool ==> (t in r <==> t in table) && (t in table ==> r[t] == table[t])
    ensures forall p :: p != param ==>
              (p in r[tool] <==> tool in table && p in table[tool]) &&
              (tool in table && p in table[tool] ==> r[tool][p] == table[tool][p])
  {
    var inner := if tool in table then table[tool] else map[];
    table[tool := inner[param := f]]
  }

  /** Writing the same cell twice keeps the later file. */
  lemma PutLastWins(table: Table, tool: string, param: string, f1: File, f2: File)
    ensures Put(Put(table, tool, param, f1), tool, param, f2) == Put(table, tool, param, f2)
  {
    var a := Put(Put(table, tool, param, f1), tool, param, f2);
    var b := Put(table, tool, param, f2);
    assert a[tool] == b[tool];
  }

  /** The dictionary object shared between the dispatcher and the agent loop. */
  class ToolFileMap {
    var entries: Table

    constructor()
      ensures entries == map[]
    {
      entries := map[];
    }
  }

  // ---------------------------------------------------------------------------
  // Routing
  // ---------------------------------------------------------------------------

  /** The one cell a successful dispatch writes. */
  datatype Write = Write(tool: string, param: string, file: File)

  datatype Outcome = Outcome(messages: seq<ToolMessage>, write: Option<Write>)

  function Apply(table: Table, w: Option<Write>): Table {
    if w.Some? then Put(table, w.value.tool, w.value.param, w.value.file) else table
  }

  /** `tool_parameters.get(key)` */
  function Get(params: map<string, string>, key: string): Option<string> {
    if key in params then Some(params[key]) else None
  }

  predicate Truthy(o: Option<string>) {
    o.Some? && o.value != ""
  }

  const FunctionsPrefix := "functions."

  /** The stripped target with one leading "functions." removed. */
  function ToolName(target: string): (r: string)
    ensures StartsWith(Strip(target), FunctionsPrefix) ==> Strip(target) == FunctionsPrefix + r
    ensures !StartsWith(Strip(target), FunctionsPrefix) ==> r == Strip(target)
  {
    var t := Strip(target);
    if StartsWith(t, FunctionsPrefix) then t[|FunctionsPrefix|..] else t
  }

  function PrefixNote(tool: string): string {
    "Note: Removed 'functions.' prefix. Using tool name: '" + tool + "'"
  }

  /** The tool branch of `_invoke`: the target and parameter name are
      stripped, one "functions." prefix is removed with a note, and both names
      must be non-empty before the cell is written. */
  function RouteToTool(f: File, target: string, parameterName: string): Outcome {
    var tool := ToolName(target);
    var param := Strip(parameterName);
    var note := if StartsWith(Strip(target), FunctionsPrefix) then [TextMessage(PrefixNote(tool))] else [];
    if tool == [] then
      Outcome(note + [TextMessage("Tool name cannot be empty")], None)
    else if param == [] then
      Outcome(note + [TextMessage("Parameter name cannot be empty")], None)
    else
      Outcome(note + [FileMessage(ToolMeta(f, tool, param))], Some(Write(tool, param, f)))
  }

  /** What `_invoke` emits and which cell of the shared map it writes. */
  function Dispatch(index: map<string, File>, params: map<string, string>): Outcome {
    var fileId := Get(params, "file_id");
    var target := Get(params, "target");
    if !Truthy(fileId) then
      Outcome([TextMessage("File ID is required")], None)
    else if fileId.value !in index then
      Outcome([TextMessage("File with ID '" + fileId.value + "' not found")], None)
    else if !Truthy(target) then
      Outcome([TextMessage("Target is required")], None)
    else if target.value == "self" then
      Outcome([FileMessage(SelfMeta(index[fileId.value]))], None)
    else
      RouteToTool(index[fileId.value], target.value, ParameterName(params))
  }

  /** `tool_parameters.get("parameter_name", "file")` */
  function ParameterName(params: map<string, string>): string {
    if "parameter_name" in params then params["parameter_name"] else "file"
  }

  /** The conditions under which a dispatch writes the shared map, and what
      it writes: the indexed file, under the cleaned tool name and the
      stripped parameter name ("file" when none was given). */
  lemma DispatchWritesIff(index: map<string, File>, params: map<string, string>)
    ensures var o := Dispatch(index, params);
            var fileId := Get(params, "file_id");
            var target := Get(params, "target");
            var param := Strip(ParameterName(params));
            (o.write.Some? <==>
               Truthy(fileId) && fileId.value in index && Truthy(target) && target.value != "self" &&
               ToolName(target.value) != [] && param != []) &&
            (o.write.Some? ==>
               o.write.value == Write(ToolName(target.value), param, index[fileId.value]) &&
               o.messages[|o.messages| - 1] == FileMessage(ToolMeta(o.write.value.file, o.write.value.tool, o.write.value.param)))
  {
  }

  /** Every dispatch emits one message, or two when a "functions." prefix was
      removed (the note comes first); a dispatch that writes nothing ends with
      an error text or, for target "self", with the self FILE message. */
  lemma DispatchMessages(index: map<string, File>, params: map<string, string>)
    ensures var o := Dispatch(index, params);
            var target := Get(params, "target");
            1 <= |o.messages| <= 2 &&
            (|o.messages| == 2 ==>
               target.Some? && StartsWith(Strip(target.value), FunctionsPrefix) &&
               o.messages[0] == TextMessage(PrefixNote(ToolName(target.value)))) &&
            (o.write.None? ==>
               o.messages[|o.messages| - 1].TextMessage? ||
               (target == Some("self") && o.messages == [FileMessage(SelfMeta(o.messages[0].meta.file.value))]))
  {
  }

  /** The three early checks run in order and each stops the dispatch with a
      single message and no write. */
  lemma DispatchValidationOrder(index: map<string, File>, params: map<string, string>)
    ensures var o := Dispatch(index, params);
            var fileId := Get(params, "file_id");
            var target := Get(params, "target");
            (!Truthy(fileId) ==> o == Outcome([TextMessage("File ID is required")], None)) &&
            (Truthy(fileId) && fileId.value !in index ==>
               |o.messages| == 1 && o.write.None? && o.messages[0].TextMessage? &&
               StartsWith(o.messages[0].text, "File with ID '")) &&
            (Truthy(fileId) && fileId.value in index && !Truthy(target) ==>
               o == Outcome([TextMessage("Target is required")], None))
  {
    var fileId := Get(params, "file_id");
    if Truthy(fileId) && fileId.value !in index {
      var t := "File with ID '" + fileId.value + "' not found";
      assert t[..|"File with ID '"|] == "File with ID '";
    }
  }

  /** Only the exact string "self" reaches the model; a padded " self " is a
      tool name. */
  lemma PaddedSelfIsATool(index: map<string, File>, id: string)
    requires id != "" && id in index
    ensures Dispatch(index, map["file_id" := id, "target" := " self "]).write
            == Some(Write("self", "file", index[id]))
  {
    var params := map["file_id" := id, "target" := " self "];
    assert Get(params, "file_id") == Some(id);
    assert Get(params, "target") == Some(" self ");
    assert ParameterName(params) == "file";
    StripPaddedSelf();
    StripNoop("file");
    assert !StartsWith("self", FunctionsPrefix);
  }

  lemma StripPaddedSelf()
    ensures Strip(" self ") == "self"
  {
    var s := " self ";
    TrimStartSkips(" ", "self ");
    assert " " + "self " == s;
    assert TrimEnd("self ") == "self";
  }

  /** The dispatch tool: the files it offers, their index, and the shared map
      it routes into. */
  class FileDispatcherTool {
    const files: seq<File>
    const fileMap: map<string, File>
    const toolFileMap: ToolFileMap

    /** `tool_file_map or {}`: a given non-empty map is shared with the caller;
        a missing or empty one is replaced by a fresh private dictionary. */
    constructor(files: seq<File>, given: ToolFileMap?)
      ensures this.files == files && fileMap == FileIndex(files)
      ensures given != null && given.entries != map[] ==> toolFileMap == given
      ensures given == null || given.entries == map[] ==> fresh(toolFileMap) && toolFileMap.entries == map[]
    {
      this.files := files;
      var index := map[];
      var i := 0;
      while i < |files|
        invariant 0 <= i <= |files|
        invariant index == FileIndex(files[..i])
      {
        assert files[..i + 1][..i] == files[..i];
        if files[i].filename.Some? {
          index := index[files[i].filename.value := files[i]];
        }
        i := i + 1;
      }
      assert files[..|files|] == files;
      fileMap := index;
      if given != null && given.entries != map[] {
        toolFileMap := given;
      } else {
        toolFileMap := new ToolFileMap();
      }
    }

    function OptionList(): (os: seq<ParameterOption>)
      ensures |os| == |files|
      ensures forall i :: 0 <= i < |files| ==> os[i] == OptionFor(files[i])
    {
      Options(files)
    }

    /** `_invoke`: validates the parameters in order, then either hands the
        file to the model or writes exactly one cell of the shared map. */
    method Invoke(params: map<string, string>) returns (msgs: seq<ToolMessage>)
      modifies toolFileMap
      ensures var o := Dispatch(fileMap, params);
              msgs == o.messages && toolFileMap.entries == Apply(old(toolFileMap.entries), o.write)
    {
      if "file_id" !in params || params["file_id"] == "" {
        return [TextMessage("File ID is required")];
      }
      var fileId := params["file_id"];
      if fileId !in fileMap {
        return [TextMessage("File with ID '" + fileId + "' not found")];
      }
      var file := fileMap[fileId];
      if "target" !in params || params["target"] == "" {
        return [TextMessage("Target is required")];
      }
      var target := params["target"];
      if target == "self" {
        return [FileMessage(SelfMeta(file))];
      }
      assert Dispatch(fileMap, params) == RouteToTool(file, target, ParameterName(params));
      msgs := DispatchToTool(file, target, ParameterName(params));
    }

    /** The tool branch of `_invoke`. */
    method DispatchToTool(file: File, target: string, parameterName: string) returns (msgs: seq<ToolMessage>)
      modifies toolFileMap
      ensures var o := RouteToTool(file, target, parameterName);
              msgs == o.messages && toolFileMap.entries == Apply(old(toolFileMap.entries), o.write)
    {
      var toolName := Strip(target);
      var paramName := Strip(parameterName);
      msgs := [];
      if StartsWith(toolName, FunctionsPrefix) {
        toolName := toolName[10..];
        msgs := msgs + [TextMessage(PrefixNote(toolName))];
      }
      assert toolName == ToolName(target);
      if toolName == [] {
        msgs := msgs + [TextMessage("Tool name cannot be empty")];
        return;
      }
      if paramName == [] {
        msgs := msgs + [TextMessage("Parameter name cannot be empty")];
        return;
      }
      var table := toolFileMap.entries;
      if toolName !in table {
        table := table[toolName := map[]];
      }
      toolFileMap.entries := table[toolName := table[toolName][paramName := file]];
      assert toolFileMap.entries == Put(old(toolFileMap.entries), toolName, paramName, file);
      msgs := msgs + [FileMessage(ToolMeta(file, toolName, paramName))];
    }
  }
}
