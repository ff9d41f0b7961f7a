/** The state and helpers shared by agent strategies: the iteration cap, the
    files waiting to be shown to the model, the surgery that attaches them to
    the last user message, and token-usage accumulation. */
module AgentBase {
  import opened Common
  import opened ToolEntities
  import opened FileDispatcher

  // ---------------------------------------------------------------------------
  // Prompt messages
  // ---------------------------------------------------------------------------

  datatype Detail = Low | High

  /** One item of a message's content list. Text items have type "text";
      `OtherPart` stands for the remaining non-text kinds. */
  datatype ContentPart =
    | TextPart(data: string)
    | ImagePart(url: string, mimeType: string, detail: Detail)
    | OtherPart(kind: string, data: string)

  datatype Content = StrContent(text: string) | PartsContent(parts: seq<ContentPart>) | NoContent

  datatype Role = SystemRole | UserRole | AssistantRole | ToolRole

  datatype PromptMessage = PromptMessage(role: Role, content: Content)

  /** The `data` of the "text" items, in order. */
  function TextData(parts: seq<ContentPart>): (ds: seq<string>)
    ensures |ds| <= |parts|
    ensures (forall k :: 0 <= k < |parts| ==> !parts[k].TextPart?) ==> ds == []
  {
    if parts == [] then []
    else
      var last := parts[|parts| - 1];
      TextData(parts[..|parts| - 1]) + (if last.TextPart? then [last.data] else [])
  }

  /** Every value read is the data of a text item. */
  lemma {:induction false} TextDataSound(parts: seq<ContentPart>)
    ensures forall d :: d in TextData(parts) ==> TextPart(d) in parts
  {
    if parts != [] {
      var init := parts[..|parts| - 1];
      TextDataSound(init);
      assert parts == init + [parts[|parts| - 1]];
    }
  }

  /** Every text item's data is read. */
  lemma {:induction false} TextDataComplete(parts: seq<ContentPart>)
    ensures forall k :: 0 <= k < |parts| && parts[k].TextPart? ==> parts[k].data in TextData(parts)
  {
    if parts != [] {
      var init := parts[..|parts| - 1];
      TextDataComplete(init);
      assert forall k :: 0 <= k < |init| ==> init[k] == parts[k];
    }
  }

  /** A list of text items only is read item by item. */
  lemma {:induction false} TextDataAllText(parts: seq<ContentPart>)
    requires forall k :: 0 <= k < |parts| ==> parts[k].TextPart?
    ensures |TextData(parts)| == |parts|
    ensures forall k :: 0 <= k < |parts| ==> TextData(parts)[k] == parts[k].data
  {
    if parts != [] {
      var init := parts[..|parts| - 1];
      assert forall k :: 0 <= k < |init| ==> init[k] == parts[k];
      TextDataAllText(init);
    }
  }

  /** `_extract_text_from_message`: string content as it is, the text items of
      a content list joined by single spaces, anything else "". */
  function ExtractText(m: PromptMessage): (r: string)
    ensures m.content.StrContent? ==> r == m.content.text
    ensures m.content.NoContent? ==> r == ""
    ensures m.content.PartsContent? ==> r == Join(" ", TextData(m.content.parts))
    ensures m.content.PartsContent? && TextData(m.content.parts) == [] ==> r == ""
  {
    match m.content
    case StrContent(s) => s
    case PartsContent(ps) => Join(" ", TextData(ps))
    case NoContent => ""
  }

  /** Two text items are read back as their data joined by one space, whatever
      non-text items lie around and between them. */
  lemma ExtractTextJoins(a: string, b: string, before: seq<ContentPart>, between: seq<ContentPart>,
                         after: seq<ContentPart>, role: Role)
    requires forall k :: 0 <= k < |before| ==> !before[k].TextPart?
    requires forall k :: 0 <= k < |between| ==> !between[k].TextPart?
    requires forall k :: 0 <= k < |after| ==> !after[k].TextPart?
    ensures ExtractText(PromptMessage(role, PartsContent(before + [TextPart(a)] + between + [TextPart(b)] + after)))
            == a + " " + b
  {
    var x := before + [TextPart(a)];
    var y := x + between;
    var z := y + [TextPart(b)];
    TextDataAppend(before, [TextPart(a)]);
    assert [TextPart(a)][..0] == [];
    assert TextData(x) == [a];
    TextDataAppend(x, between);
    assert TextData(y) == [a];
    TextDataAppend(y, [TextPart(b)]);
    assert [TextPart(b)][..0] == [];
    assert TextData(z) == [a, b];
    TextDataAppend(z, after);
    assert TextData(z + after) == [a, b];
    assert [a, b][..1] == [a];
  }

  /** The content item `_create_user_message_with_files` adds for a file: an
      image by its url (none when the url is empty), any other file as a line
      of text naming it. */
  function FilePart(f: File): (p: Option<ContentPart>)
    ensures f.fileType != Some(Image) ==>
              p == Some(TextPart("\n[File: " + Show(f.filename) + " (Type: " + TypeText(f) + ")]\n"))
    ensures f.fileType == Some(Image) ==> (p.Some? <==> f.url.Some? && f.url.value != "")
    ensures p.Some? && p.value.ImagePart? ==>
              p.value.url == f.url.value && p.value.detail == Low &&
              p.value.mimeType == (if f.mimeType.Some? && f.mimeType.value != "" then f.mimeType.value else "image/png")
  {
    if f.fileType == Some(Image) then
      if f.url.Some? && f.url.value != "" then
        Some(ImagePart(f.url.value, if f.mimeType.Some? && f.mimeType.value != "" then f.mimeType.value else "image/png", Low))
      else None
    else
      Some(TextPart("\n[File: " + Show(f.filename) + " (Type: " + TypeText(f) + ")]\n"))
  }

  function FileParts(files: seq<File>): seq<ContentPart> {
    if files == [] then []
    else
      var rest := FileParts(files[..|files| - 1]);
      var p := FilePart(files[|files| - 1]);
      if p.Some? then rest + [p.value] else rest
  }

  /** Files that add nothing: images whose url is empty. */
  function Dropped(files: seq<File>): nat {
    if files == [] then 0
    else Dropped(files[..|files| - 1]) + (if FilePart(files[|files| - 1]).None? then 1 else 0)
  }

  /** Every file contributes one content item, except images without a url. */
  lemma {:induction false} FilePartsCount(files: seq<File>)
    ensures |FileParts(files)| == |files| - Dropped(files)
    ensures Dropped(files) <= |files|
  {
    if files != [] {
      FilePartsCount(files[..|files| - 1]);
    }
  }

  /** The message `_create_user_message_with_files` builds. */
  function UserMessageWithFiles(text: string, files: seq<File>): PromptMessage {
    PromptMessage(UserRole, PartsContent((if text != "" then [TextPart(text)] else []) + FileParts(files)))
  }

  lemma {:induction false} ImageFilePartsAreImages(files: seq<File>)
    requires forall k :: 0 <= k < |files| ==> files[k].fileType == Some(Image)
    ensures forall k :: 0 <= k < |FileParts(files)| ==> FileParts(files)[k].ImagePart?
  {
    if files != [] {
      ImageFilePartsAreImages(files[..|files| - 1]);
    }
  }

  lemma {:induction false} TextDataAppend(a: seq<ContentPart>, b: seq<ContentPart>)
    ensures TextData(a + b) == TextData(a) + TextData(b)
  {
    if b == [] {
      assert a + b == a;
    } else {
      assert (a + b)[..|a + b| - 1] == a + b[..|b| - 1];
      TextDataAppend(a, b[..|b| - 1]);
    }
  }

  /** Attaching images (only) to a text and reading the text back gives the
      text. */
  lemma ExtractTextOfImageMessage(text: string, files: seq<File>)
    requires forall k :: 0 <= k < |files| ==> files[k].fileType == Some(Image)
    ensures ExtractText(UserMessageWithFiles(text, files)) == text
  {
    ImageFilePartsAreImages(files);
    var head: seq<ContentPart> := if text != "" then [TextPart(text)] else [];
    TextDataAppend(head, FileParts(files));
    assert TextData(FileParts(files)) == [];
    assert TextData(head) == (if text != "" then [text] else []);
  }

  lemma FilePartsSnoc(files: seq<File>, i: nat)
    requires i < |files|
    ensures FileParts(files[..i + 1]) ==
            FileParts(files[..i]) + (if FilePart(files[i]).Some? then [FilePart(files[i]).value] else [])
  {
    assert files[..i + 1][..i] == files[..i];
  }

  /** `_create_user_message_with_files`, appending item by item. */
  method CreateUserMessageWithFiles(text: string, files: seq<File>) returns (m: PromptMessage)
    ensures m == UserMessageWithFiles(text, files)
  {
    var content: seq<ContentPart> := [];
    if text != "" {
      content := content + [TextPart(text)];
    }
    ghost var head := content;
    assert head == if text != "" then [TextPart(text)] else [];
    var i := 0;
    while i < |files|
      invariant 0 <= i <= |files|
      invariant content == head + FileParts(files[..i])
    {
      FilePartsSnoc(files, i);
      var file := files[i];
      if file.fileType == Some(Image) {
        var imageUrl := if file.url.Some? then file.url.value else "";
        if imageUrl != "" {
          var mime := if file.mimeType.Some? && file.mimeType.value != "" then file.mimeType.value else "image/png";
          content := content + [ImagePart(imageUrl, mime, Low)];
        }
      } else {
        var fileInfo := "\n[File: " + Show(file.filename) + " (Type: " + TypeText(file) + ")]\n";
        content := content + [TextPart(fileInfo)];
      }
      i := i + 1;
    }
    assert files[..i] == files;
    m := PromptMessage(UserRole, PartsContent(content));
  }

  /** The position of the last user message, if any. */
  function LastUserIndex(messages: seq<PromptMessage>): (r: Option<nat>)
    ensures r.Some? ==> r.value < |messages| && messages[r.value].role == UserRole &&
                        forall k :: r.value < k < |messages| ==> messages[k].role != UserRole
    ensures r.None? ==> forall k :: 0 <= k < |messages| ==> messages[k].role != UserRole
  {
    if messages == [] then None
    else if messages[|messages| - 1].role == UserRole then Some(|messages| - 1)
    else
      var r := LastUserIndex(messages[..|messages| - 1]);
      assert forall k :: 0 <= k < |messages| - 1 ==> messages[..|messages| - 1][k] == messages[k];
      r
  }

  /** The message list `_prepare_messages_with_files` returns when files are
      pending: only the last user message is replaced (keeping its text), or,
      when there is none, one user message is appended; every other message
      stays where it was. */
  function WithFiles(messages: seq<PromptMessage>, files: seq<File>): (r: seq<PromptMessage>)
    ensures LastUserIndex(messages).None? ==>
              |r| == |messages| + 1 && r[..|messages|] == messages &&
              r[|messages|] == UserMessageWithFiles("", files)
    ensures LastUserIndex(messages).Some? ==>
              var idx := LastUserIndex(messages).value;
              |r| == |messages| &&
              r[idx] == UserMessageWithFiles(ExtractText(messages[idx]), files) &&
              forall k :: 0 <= k < |messages| && k != idx ==> r[k] == messages[k]
  {
    var idx := LastUserIndex(messages);
    if idx.None? then messages + [UserMessageWithFiles("", files)]
    else messages[idx.value := UserMessageWithFiles(ExtractText(messages[idx.value]), files)]
  }

  // ---------------------------------------------------------------------------
  // Token usage
  // ---------------------------------------------------------------------------

  datatype Tokens = Tokens(promptTokens: int, completionTokens: int, totalTokens: int)

  function AddTokens(a: Tokens, b: Tokens): (r: Tokens)
    ensures r.promptTokens == a.promptTokens + b.promptTokens
    ensures r.completionTokens == a.completionTokens + b.completionTokens
    ensures r.totalTokens == a.totalTokens + b.totalTokens
  {
    Tokens(a.promptTokens + b.promptTokens, a.completionTokens + b.completionTokens, a.totalTokens + b.totalTokens)
  }

  /** The token counters of one `LLMUsage` object. */
  class LLMUsage {
    var promptTokens: int
    var completionTokens: int
    var totalTokens: int

    constructor(t: Tokens)
      ensures Value() == t
    {
      promptTokens := t.promptTokens;
      completionTokens := t.completionTokens;
      totalTokens := t.totalTokens;
    }

    function Value(): Tokens
      reads this
    {
      Tokens(promptTokens, completionTokens, totalTokens)
    }
  }

  /** The `{"usage": ...}` dictionary a run accumulates into. */
  class UsageTotal {
    var usage: LLMUsage?

    constructor()
      ensures usage == null
    {
      usage := null;
    }
  }

  /** `_accumulate_usage`: the first delta object is stored itself; later
      deltas are added into the stored object field by field. */
  method AccumulateUsage(total: UsageTotal, delta: LLMUsage)
    modifies total, total.usage
    ensures old(total.usage) == null ==> total.usage == delta && delta.Value() == old(delta.Value())
    ensures old(total.usage) != null ==>
              total.usage == old(total.usage) &&
              total.usage.Value() == AddTokens(old(total.usage.Value()), old(delta.Value()))
  {
    if total.usage == null {
      total.usage := delta;
    } else {
      var current := total.usage;
      current.promptTokens := current.promptTokens + delta.promptTokens;
      current.completionTokens := current.completionTokens + delta.completionTokens;
      current.totalTokens := current.totalTokens + delta.totalTokens;
    }
  }

  // ---------------------------------------------------------------------------
  // The strategy object
  // ---------------------------------------------------------------------------

  const IterationCap := 99

  /** `min(max_iterations, 99)` */
  function CapIterations(requested: int): (r: int)
    ensures r <= IterationCap
    ensures r == requested || r == IterationCap
    ensures requested <= IterationCap ==> r == requested
  {
    if requested < IterationCap then requested else IterationCap
  }

  /** A tool handed to the agent, with the dispatcher behind it when it is the
      built-in file dispatcher. */
  datatype AgentTool = AgentTool(tool: Tool, dispatcher: Option<FileDispatcherTool>)

  /** The tool-file maps of the dispatchers among `tools`. */
  function DispatcherMaps(tools: seq<AgentTool>): set<ToolFileMap> {
    set k | 0 <= k < |tools| && tools[k].dispatcher.Some? :: tools[k].dispatcher.value.toolFileMap
  }

  class AgentPattern {
    const tools: seq<AgentTool>
    const maxIterations: int
    /** Files to be shown to the model with the next prompt. */
    var files: seq<File>

    constructor(tools: seq<AgentTool>, maxIterations: int)
      ensures this.tools == tools && this.maxIterations == CapIterations(maxIterations) && files == []
    {
      this.tools := tools;
      this.maxIterations := CapIterations(maxIterations);
      files := [];
    }

    /** `_prepare_messages_with_files`: with no pending files the list comes
        back as it is; otherwise a copy with the files attached is returned
        and the pending files are cleared. */
    method PrepareMessagesWithFiles(messages: seq<PromptMessage>) returns (r: seq<PromptMessage>)
      modifies this
      ensures old(files) == [] ==> r == messages
      ensures old(files) != [] ==> r == WithFiles(messages, old(files))
      ensures files == []
    {
      if files == [] {
        return messages;
      }
      var copy := messages;
      var lastUserIdx := -1;
      var i := |copy| - 1;
      while i >= 0
        invariant -1 <= i < |copy|
        invariant forall k :: i < k < |copy| ==> copy[k].role != UserRole
      {
        if copy[i].role == UserRole {
          lastUserIdx := i;
          break;
        }
        i := i - 1;
      }
      assert lastUserIdx == -1 ==> LastUserIndex(copy).None?;
      assert lastUserIdx != -1 ==> LastUserIndex(copy) == Some(lastUserIdx);
      if lastUserIdx == -1 {
        var m := CreateUserMessageWithFiles("", files);
        copy := copy + [m];
      } else {
        var textContent := ExtractText(copy[lastUserIdx]);
        var m := CreateUserMessageWithFiles(textContent, files);
        copy := copy[lastUserIdx := m];
      }
      files := [];
      return copy;
    }
  }
}
