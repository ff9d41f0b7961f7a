/** The two system-prompt fragments that tell the model which files it has and
    which tools take files under which parameter names. */
module ToolsPrompt {
  import opened Common
  import opened ToolEntities

  // ---------------------------------------------------------------------------
  // The file list
  // ---------------------------------------------------------------------------

  const FileHeader := "Files are available for your use. Use the 'dispatch_file' tool to work with them:\n"
  const TrailerUse := "\nUse dispatch_file with:\n"
  const TrailerSelf := "- target='self' to analyze file content yourself\n"
  const TrailerTool := "- target='<tool_name>' to send file to another tool (see tool file parameters below)"

  /** `f"{size:,} bytes"` for a non-zero size, else "unknown size". */
  function SizeText(size: Option<int>): (r: string)
    ensures size.Some? && size.value > 0 ==> RemoveCommas(r) == Decimal(size.value) + " bytes"
    ensures size.None? || size.value == 0 ==> r == "unknown size"
  {
    if size.Some? && size.value != 0 then
      BytesTextDenotes(size.value);
      GroupedInt(size.value) + " bytes"
    else "unknown size"
  }

  lemma BytesTextDenotes(n: int)
    ensures n > 0 ==> RemoveCommas(GroupedInt(n) + " bytes") == Decimal(n) + " bytes"
  {
    if n > 0 {
      GroupedIntDenotes(n);
      RemoveCommasAppend(GroupedInt(n), " bytes");
      RemoveCommasNoop(" bytes");
    }
  }

  /** The line describing the file numbered `n`; the filename doubles as its id. */
  function FileLine(n: nat, f: File): string {
    Decimal(n) + ". " + Show(f.filename) + " (Type: " + TypeText(f) + ", Size: " + SizeText(f.size) +
    ", ID: " + Show(f.filename) + ")\n"
  }

  /** The lines for `files`, numbered from `first`. */
  function FileLines(files: seq<File>, first: nat): string {
    if files == [] then [] else FileLines(files[..|files| - 1], first) + FileLine(first + |files| - 1, files[|files| - 1])
  }

  /** `generate_file_prompt` */
  function FilePromptText(files: seq<File>): string {
    if files == [] then "" else FileHeader + FileLines(files, 1) + TrailerUse + TrailerSelf + TrailerTool
  }

  /** The prompt is empty exactly when there are no files; otherwise it is the
      header, the numbered lines and the trailer, and does not end in a
      newline. */
  lemma FilePromptShape(files: seq<File>)
    ensures FilePromptText(files) == "" <==> files == []
    ensures files != [] ==>
              StartsWith(FilePromptText(files), FileHeader) &&
              FilePromptText(files)[|FilePromptText(files)| - |TrailerTool|..] == TrailerTool &&
              FilePromptText(files)[|FilePromptText(files)| - 1] != '\n'
  {
    if files != [] {
      var head := FileHeader + FileLines(files, 1);
      var body := head + TrailerUse + TrailerSelf;
      AppendParts(FileHeader, FileLines(files, 1));
      AppendParts(head, TrailerUse + TrailerSelf + TrailerTool);
      AppendAssoc(head, TrailerUse + TrailerSelf, TrailerTool);
      AppendAssoc(head, TrailerUse, TrailerSelf);
      AppendParts(body, TrailerTool);
    }
  }

  lemma FileLinesSnoc(files: seq<File>, i: nat)
    requires i < |files|
    ensures FileLines(files[..i + 1], 1) == FileLines(files[..i], 1) + FileLine(i + 1, files[i])
  {
    assert files[..i + 1][..i] == files[..i];
  }

  /** `generate_file_prompt`, building the text line by line. */
  method GenerateFilePrompt(files: seq<File>) returns (fileInfo: string)
    ensures fileInfo == FilePromptText(files)
  {
    if files == [] {
      return "";
    }
    fileInfo := FileHeader;
    var i := 0;
    while i < |files|
      invariant 0 <= i <= |files|
      invariant fileInfo == FileHeader + FileLines(files[..i], 1)
    {
      FileLinesSnoc(files, i);
      AppendAssoc(FileHeader, FileLines(files[..i], 1), FileLine(i + 1, files[i]));
      fileInfo := fileInfo + FileLine(i + 1, files[i]);
      i := i + 1;
    }
    assert files[..i] == files;
    fileInfo := fileInfo + TrailerUse;
    fileInfo := fileInfo + TrailerSelf;
    fileInfo := fileInfo + TrailerTool;
  }

  // ---------------------------------------------------------------------------
  // Tools that take files
  // ---------------------------------------------------------------------------

  predicate IsFileParameter(p: ToolParameter) {
    p.paramType == FileParameter || p.paramType == FilesParameter || p.paramType == SystemFilesParameter
  }

  /** The names of the file-typed parameters, in parameter order. */
  function FileParamNames(ps: seq<ToolParameter>): (names: seq<string>)
    ensures |names| <= |ps|
    ensures forall n :: n in names <==> exists k :: 0 <= k < |ps| && IsFileParameter(ps[k]) && ps[k].name == n
  {
    if ps == [] then []
    else
      var rest := FileParamNames(ps[..|ps| - 1]);
      assert forall k :: 0 <= k < |ps| - 1 ==> ps[..|ps| - 1][k] == ps[k];
      if IsFileParameter(ps[|ps| - 1]) then rest + [ps[|ps| - 1].name] else rest
  }

  /** The file parameters a tool contributes, or `None` when it is skipped. */
  function ToolFileParams(t: Tool): Option<seq<string>> {
    if !t.entityHasIdentity then None
    else if t.mergedParameters.Some? then Some(FileParamNames(t.mergedParameters.value))
    else if t.entityParameters.Some? then Some(FileParamNames(t.entityParameters.value))
    else None
  }

  /** An insertion-ordered dictionary from tool name to parameter names. */
  type ParamTable = seq<(string, seq<string>)>

  predicate UniqueKeys(table: ParamTable) {
    forall i, j :: 0 <= i < j < |table| ==> table[i].0 != table[j].0
  }

  function Keys(table: ParamTable): (ks: set<string>)
    ensures forall k :: k in ks <==> exists i :: 0 <= i < |table| && table[i].0 == k
  {
    if table == [] then {} else {table[0].0} + Keys(table[1..])
  }

  /** `d[key] = value` on an ordered dictionary: an existing key keeps its
      position and takes the new value; a new key goes last. */
  function Upsert(table: ParamTable, key: string, value: seq<string>): (r: ParamTable)
    ensures Keys(r) == Keys(table) + {key}
    ensures key !in Keys(table) ==> r == table + [(key, value)]
  {
    if table == [] then [(key, value)]
    else if table[0].0 == key then [(key, value)] + table[1..]
    else [table[0]] + Upsert(table[1..], key, value)
  }

  /** Below the first entry of a dictionary with distinct keys, the keys are
      distinct and the first key does not reappear. */
  lemma UniqueTail(table: ParamTable)
    requires table != [] && UniqueKeys(table)
    ensures UniqueKeys(table[1..]) && table[0].0 !in Keys(table[1..])
  {
    var tail := table[1..];
    forall i, j | 0 <= i < j < |tail| ensures tail[i].0 != tail[j].0 {
      assert tail[i] == table[i + 1] && tail[j] == table[j + 1];
    }
    forall i | 0 <= i < |tail| ensures tail[i].0 != table[0].0 {
      assert tail[i] == table[i + 1];
    }
  }

  /** An entry whose key is new may go in front of a dictionary with
      distinct keys. */
  lemma ConsUnique(entry: (string, seq<string>), table: ParamTable)
    requires UniqueKeys(table) && entry.0 !in Keys(table)
    ensures UniqueKeys([entry] + table)
  {
    var r := [entry] + table;
    forall i, j | 0 <= i < j < |r| ensures r[i].0 != r[j].0 {
      assert r[j] == table[j - 1];
      if i > 0 {
        assert r[i] == table[i - 1];
      }
    }
  }

  /** Writing a key keeps the keys of a dictionary distinct. */
  lemma {:induction false} UpsertUnique(table: ParamTable, key: string, value: seq<string>)
    requires UniqueKeys(table)
    ensures UniqueKeys(Upsert(table, key, value))
  {
    if table != [] {
      UniqueTail(table);
      if table[0].0 == key {
        ConsUnique((key, value), table[1..]);
      } else {
        UpsertUnique(table[1..], key, value);
        ConsUnique(table[0], Upsert(table[1..], key, value));
      }
    }
  }

  function Lookup(table: ParamTable, key: string): Option<seq<string>> {
    if table == [] then None
    else if table[0].0 == key then Some(table[0].1)
    else Lookup(table[1..], key)
  }

  lemma {:induction false} LookupUpsert(table: ParamTable, key: string, value: seq<string>, other: string)
    ensures Lookup(Upsert(table, key, value), other) == if other == key then Some(value) else Lookup(table, other)
  {
    if table != [] && table[0].0 != key {
      LookupUpsert(table[1..], key, value, other);
    }
  }

  /** The `tool_file_params` dictionary after the first `|tools|` tools. */
  function CollectFileParams(tools: seq<Tool>): ParamTable {
    if tools == [] then []
    else
      var table := CollectFileParams(tools[..|tools| - 1]);
      var ps := ToolFileParams(tools[|tools| - 1]);
      if ps.Some? && ps.value != [] then Upsert(table, tools[|tools| - 1].name, ps.value) else table
  }

  /** The collected dictionary has each tool name once, with a non-empty list
      of file parameters. */
  lemma {:induction false} CollectedWellFormed(tools: seq<Tool>)
    ensures UniqueKeys(CollectFileParams(tools))
    ensures forall name :: Lookup(CollectFileParams(tools), name).Some? ==> Lookup(CollectFileParams(tools), name).value != []
  {
    if tools != [] {
      var init := tools[..|tools| - 1];
      CollectedWellFormed(init);
      var ps := ToolFileParams(tools[|tools| - 1]);
      if ps.Some? && ps.value != [] {
        forall name ensures Lookup(CollectFileParams(tools), name).Some? ==> Lookup(CollectFileParams(tools), name).value != [] {
          LookupUpsert(CollectFileParams(init), tools[|tools| - 1].name, ps.value, name);
        }
        UpsertUnique(CollectFileParams(init), tools[|tools| - 1].name, ps.value);
      }
    }
  }

  /** The tool contributes a non-empty list of file parameters. */
  predicate Contributes(t: Tool) {
    ToolFileParams(t).Some? && ToolFileParams(t).value != []
  }

  /** The file parameters of the last tool called `name` that contributes
      any: the value a dictionary written in list order ends up holding. */
  function LastContribution(tools: seq<Tool>, name: string): (r: Option<seq<string>>)
    ensures r.None? <==> forall k :: 0 <= k < |tools| && tools[k].name == name ==> !Contributes(tools[k])
    ensures r.Some? ==>
              r.value != [] &&
              exists k :: 0 <= k < |tools| && tools[k].name == name && ToolFileParams(tools[k]) == r
  {
    if tools == [] then None
    else
      var init := tools[..|tools| - 1];
      var last := tools[|tools| - 1];
      assert forall k :: 0 <= k < |init| ==> init[k] == tools[k];
      if last.name == name && Contributes(last) then ToolFileParams(last) else LastContribution(init, name)
  }

  /** A tool name is listed with the file parameters of the last tool of that
      name that has any; a name no such tool carries is not listed. */
  lemma {:induction false} CollectedLookup(tools: seq<Tool>, name: string)
    ensures Lookup(CollectFileParams(tools), name) == LastContribution(tools, name)
  {
    if tools != [] {
      var init := tools[..|tools| - 1];
      var last := tools[|tools| - 1];
      CollectedLookup(init, name);
      if Contributes(last) {
        LookupUpsert(CollectFileParams(init), last.name, ToolFileParams(last).value, name);
      }
    }
  }

  const ParamsHeader := "\nTools that accept files and their parameter names:\n"
  const ParamsClosing := "\nWhen using dispatch_file, specify the exact tool name and parameter name from this list."

  function Quote(p: string): string {
    "'" + p + "'"
  }

  function QuoteAll(ps: seq<string>): (qs: seq<string>)
    ensures |qs| == |ps|
    ensures forall k :: 0 <= k < |ps| ==> qs[k] == Quote(ps[k])
  {
    if ps == [] then [] else [Quote(ps[0])] + QuoteAll(ps[1..])
  }

  function ToolLine(entry: (string, seq<string>)): string {
    "- " + entry.0 + ": " + Join(", ", QuoteAll(entry.1)) + "\n"
  }

  function ToolLines(table: ParamTable): string {
    if table == [] then [] else ToolLines(table[..|table| - 1]) + ToolLine(table[|table| - 1])
  }

  /** `generate_tool_file_params_prompt` */
  function ToolParamsPromptText(tools: seq<Tool>): string {
    var table := CollectFileParams(tools);
    if table == [] then "" else ParamsHeader + ToolLines(table) + ParamsClosing
  }

  /** The text is empty exactly when no tool contributes a file parameter. */
  lemma ToolParamsPromptEmpty(tools: seq<Tool>)
    ensures ToolParamsPromptText(tools) == "" <==> forall k :: 0 <= k < |tools| ==> !Contributes(tools[k])
  {
    var table := CollectFileParams(tools);
    if table == [] {
      forall k | 0 <= k < |tools|
        ensures !Contributes(tools[k])
      {
        CollectedLookup(tools, tools[k].name);
      }
    } else {
      CollectedLookup(tools, table[0].0);
    }
  }

  /** The inner loop of `tool_file_params`: the names of a tool's file
      parameters. */
  method CollectFileParamNames(parameters: seq<ToolParameter>) returns (fileParams: seq<string>)
    ensures fileParams == FileParamNames(parameters)
  {
    fileParams := [];
    var k := 0;
    while k < |parameters|
      invariant 0 <= k <= |parameters|
      invariant fileParams == FileParamNames(parameters[..k])
    {
      assert parameters[..k + 1][..k] == parameters[..k];
      if IsFileParameter(parameters[k]) {
        fileParams := fileParams + [parameters[k].name];
      }
      k := k + 1;
    }
    assert parameters[..k] == parameters;
  }

  /** The `tool_file_params` loop. */
  method CollectToolFileParams(tools: seq<Tool>) returns (table: ParamTable)
    ensures table == CollectFileParams(tools)
  {
    table := [];
    var i := 0;
    while i < |tools|
      invariant 0 <= i <= |tools|
      invariant table == CollectFileParams(tools[..i])
    {
      assert tools[..i + 1][..i] == tools[..i];
      var tool := tools[i];
      if tool.entityHasIdentity {
        var parameters: seq<ToolParameter>;
        var found := true;
        if tool.mergedParameters.Some? {
          parameters := tool.mergedParameters.value;
        } else if tool.entityParameters.Some? {
          parameters := tool.entityParameters.value;
        } else {
          found := false;
          parameters := [];
        }
        if found {
          var fileParams := CollectFileParamNames(parameters);
          if fileParams != [] {
            table := Upsert(table, tool.name, fileParams);
          }
        }
      }
      i := i + 1;
    }
    assert tools[..i] == tools;
  }

  lemma ToolLinesSnoc(table: ParamTable, i: nat)
    requires i < |table|
    ensures ToolLines(table[..i + 1]) == ToolLines(table[..i]) + ToolLine(table[i])
  {
    assert table[..i + 1][..i] == table[..i];
  }

  /** `generate_tool_file_params_prompt`, appending one line per tool. */
  method GenerateToolFileParamsPrompt(tools: seq<Tool>) returns (prompt: string)
    ensures prompt == ToolParamsPromptText(tools)
  {
    var table := CollectToolFileParams(tools);
    if table == [] {
      return "";
    }
    prompt := ParamsHeader;
    var i := 0;
    while i < |table|
      invariant 0 <= i <= |table|
      invariant prompt == ParamsHeader + ToolLines(table[..i])
    {
      ToolLinesSnoc(table, i);
      AppendAssoc(ParamsHeader, ToolLines(table[..i]), ToolLine(table[i]));
      prompt := prompt + ToolLine(table[i]);
      i := i + 1;
    }
    assert table[..i] == table;
    prompt := prompt + ParamsClosing;
  }
}
