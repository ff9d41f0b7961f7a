/** The entities the agent core passes around: files, the messages a tool
    call emits, and tools with their parameter declarations. */
module ToolEntities {
  import opened Common

  datatype FileType = Image | Document | Audio | Video | Custom

  /** The enum's `.value` string. */
  function TypeValue(t: FileType): string {
    match t
    case Image => "image"
    case Document => "document"
    case Audio => "audio"
    case Video => "video"
    case Custom => "custom"
  }

  /** The fields of a file the agent core reads; `url` is what
      `generate_url()` returns for it. */
  datatype File = File(
    filename: Option<string>,
    fileType: Option<FileType>,
    size: Option<int>,
    url: Option<string>,
    mimeType: Option<string>)

  /** `f.type.value if f.type else 'unknown'` */
  function TypeText(f: File): string {
    if f.fileType.Some? then TypeValue(f.fileType.value) else "unknown"
  }

  /** What a tool call emits. A FILE message carries its metadata dictionary,
      here with the keys the core writes or reads. */
  datatype FileMeta = FileMeta(
    file: Option<File>,
    target: Option<string>,
    targetTool: Option<string>,
    parameterName: Option<string>)

  datatype ToolMessage =
    | TextMessage(text: string)
    | FileMessage(meta: FileMeta)
    | OtherMessage

  function SelfMeta(f: File): FileMeta {
    FileMeta(Some(f), Some("self"), None, None)
  }

  function ToolMeta(f: File, tool: string, param: string): FileMeta {
    FileMeta(Some(f), None, Some(tool), Some(param))
  }

  datatype ParameterType = FileParameter | FilesParameter | SystemFilesParameter | OtherParameter

  datatype ToolParameter = ToolParameter(name: string, paramType: ParameterType)

  /** A tool as the agent core reads it. `hasIdentity` is whether the tool
      object answers `identity` (what the ReAct loop tests) and
      `entityHasIdentity` whether its entity has one (what the prompt builder
      tests); both name the tool `name`. The parameter lists are `None` where
      the tool has no such attribute. */
  datatype Tool = Tool(
    hasIdentity: bool,
    entityHasIdentity: bool,
    name: string,
    description: string,
    mergedParameters: Option<seq<ToolParameter>>,
    entityParameters: Option<seq<ToolParameter>>)
}
