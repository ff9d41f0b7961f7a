/** Creation of the built-in file dispatcher for an agent run. */
module ToolsManager {
  import opened ToolEntities
  import opened FileDispatcher

  /** `create_file_dispatcher`: no files, no dispatcher; otherwise a dispatcher
      over exactly those files, sharing the given map under the dispatcher's
      own rule. `constructionFails` stands for an exception raised while the
      tool is built, which is swallowed into `None`. */
  method CreateFileDispatcher(files: seq<File>, given: ToolFileMap?, constructionFails: bool)
    returns (tool: FileDispatcherTool?)
    ensures files == [] || constructionFails <==> tool == null
    ensures tool != null ==>
              fresh(tool) && tool.files == files && tool.fileMap == FileIndex(files) &&
              (given != null && given.entries != map[] ==> tool.toolFileMap == given) &&
              (given == null || given.entries == map[] ==> fresh(tool.toolFileMap) && tool.toolFileMap.entries == map[])
  {
    if files == [] {
      return null;
    }
    if constructionFails {
      return null;
    }
    tool := new FileDispatcherTool(files, given);
  }
}
