/** The tool store: the tool the carousel has centred and the click handler the page installs. */
module ToolStore {
  import opened Wrappers
  import opened ToolCatalogue

  /**
   * The only handler ever installed is the page root's `handleClick`, memoised once; it
   * carries the value of the running total that its closure captured when it was created.
   */
  datatype ClickHandler = HomeHandleClick(capturedTime: real)

  class ToolStore {
    var centeredTool: Option<Tool>
    var handleClick: Option<ClickHandler>

    /** Both fields start out null. */
    constructor ()
      ensures centeredTool == None && handleClick == None
    {
      centeredTool := None;
      handleClick := None;
    }

    /** `setCenteredTool(tool)`: the last writer wins; the handler is untouched. */
    method SetCenteredTool(tool: Option<Tool>)
      modifies this
      ensures centeredTool == tool
      ensures handleClick == old(handleClick)
    {
      centeredTool := tool;
    }

    /** `setHandleClick(fn)`: the last writer wins; the centred tool is untouched. */
    method SetHandleClick(fn: Option<ClickHandler>)
      modifies this
      ensures handleClick == fn
      ensures centeredTool == old(centeredTool)
    {
      handleClick := fn;
    }
  }
}
