/**
 * The page root: the list of tools collected into the workflow and the click handler that
 * adds a tool to it and adds the tool's time to the running total.
 */
module Page {
  import opened Wrappers
  import opened Duration
  import opened ToolCatalogue
  import opened TimeStore
  import opened ToolStore
  import opened ToolSelection

  /** One entry of `collected`: a fresh id derived from the tool's id, its colour and its name. */
  datatype CollectedItem = CollectedItem(id: string, color: string, tool: string)

  /** The added minutes of the tool with id `id`, if the catalogue has one. */
  function ToolMinutes(id: string): (r: Option<real>)
    ensures r.Some? <==> Find(ToolActions, id).Some?
    ensures r.Some? ==> 1.0 <= r.value <= 3.0
                        && ParseTimeString(Find(ToolActions, id).value.time) == Finite(r.value)
  {
    var k := FindIndex(ToolActions, id);
    if k < |ToolActions| then
      CatalogueTimesParse(k);
      Some(ParseTimeString(ToolActions[k].time).value)
    else None
  }

  class Home {
    var collected: seq<CollectedItem>
    const timeStore: TimeStore
    const toolStore: ToolStore

    /**
     * Mounting: nothing collected, and the effect installs the memoised handler, whose closure
     * holds the running total of this first render.
     */
    constructor (timeStore: TimeStore, toolStore: ToolStore)
      modifies toolStore
      ensures this.timeStore == timeStore && this.toolStore == toolStore
      ensures collected == []
      ensures toolStore.handleClick == Some(HomeHandleClick(timeStore.time))
      ensures toolStore.centeredTool == old(toolStore.centeredTool)
    {
      this.timeStore := timeStore;
      this.toolStore := toolStore;
      collected := [];
      new;
      toolStore.SetHandleClick(Some(HomeHandleClick(timeStore.time)));
    }

    /**
     * `handleClick(id)` run by a handler whose closure captured the total `capturedTime`.
     * An unknown id, or no element with that id on the page, changes nothing. Otherwise one
     * item, whose id is `id`, a dash and the random `suffix`, is appended, and
     * `setTime(capturedTime + parsed)` adds the tool-level time on top of the current total.
     */
    method HandleClick(id: string, capturedTime: real, elementPresent: bool, suffix: string)
      modifies this, timeStore
      ensures ToolMinutes(id).None? || !elementPresent ==>
                collected == old(collected) && timeStore.time == old(timeStore.time)
      ensures ToolMinutes(id).Some? && elementPresent ==>
                var t := Find(ToolActions, id).value;
                collected == old(collected) + [CollectedItem(id + "-" + suffix, t.color, t.tool)]
                && timeStore.time == old(timeStore.time) + (capturedTime + ToolMinutes(id).value)
    {
      var clicked := Find(ToolActions, id);
      if clicked.None? {
        return;
      }
      if !elementPresent {
        return;
      }
      var addedTime := ToolMinutes(id).value;
      timeStore.SetTime(capturedTime + addedTime);
      collected := collected + [CollectedItem(id + "-" + suffix, clicked.value.color, clicked.value.tool)];
    }

    /**
     * The panel's "Add to workflow" button, followed by the handler call it makes when a tool
     * is centred and a handler is installed.
     */
    method AddToWorkflow(panel: ToolDescription, elementPresent: bool, suffix: string)
      requires panel.store == toolStore
      modifies panel, this, timeStore
      ensures panel.index == old(panel.index)
      ensures toolStore.centeredTool.None? ==> panel.clicked == old(panel.clicked)
      ensures toolStore.centeredTool.Some? ==> panel.clicked
      ensures toolStore.centeredTool.None? || toolStore.handleClick.None? || !elementPresent
              || ToolMinutes(toolStore.centeredTool.value.id).None? ==>
                collected == old(collected) && timeStore.time == old(timeStore.time)
      ensures toolStore.centeredTool.Some? && toolStore.handleClick.Some? && elementPresent
              && ToolMinutes(toolStore.centeredTool.value.id).Some? ==>
                var id := toolStore.centeredTool.value.id;
                var t := Find(ToolActions, id).value;
                collected == old(collected) + [CollectedItem(id + "-" + suffix, t.color, t.tool)]
                && timeStore.time == old(timeStore.time) + toolStore.handleClick.value.capturedTime
                                     + ToolMinutes(id).value
    {
      var dispatch := panel.OnAddToWorkflow();
      if dispatch.Some? {
        HandleClick(dispatch.value.id, dispatch.value.handler.capturedTime, elementPresent, suffix);
      }
    }
  }

  lemma SlackAndGmailMinutes()
    ensures Find(ToolActions, "slack") == Some(ToolActions[0]) && ToolActions[0].tool == "Slack"
    ensures Find(ToolActions, "gmail") == Some(ToolActions[1]) && ToolActions[1].tool == "Gmail"
    ensures ToolMinutes("slack") == Some(3.0) && ToolMinutes("gmail") == Some(2.0)
  {
    SlackAndGmailTimes();
    FindCatalogue(0);
    FindCatalogue(1);
  }

  /**
   * Adding Slack and then Gmail through the handler installed at mount: two items, and
   * 3 + 2 = 5 minutes, because the handler's captured total stays 0 and the store adds.
   */
  method SlackThenGmail(suffix1: string, suffix2: string) returns (total: real, items: seq<CollectedItem>)
    ensures total == 5.0
    ensures |items| == 2
  {
    var timeStore := new TimeStore();
    var toolStore := new ToolStore();
    var home := new Home(timeStore, toolStore);
    var handler := toolStore.handleClick.value;
    SlackAndGmailMinutes();
    home.HandleClick("slack", handler.capturedTime, true, suffix1);
    home.HandleClick("gmail", handler.capturedTime, true, suffix2);
    total := timeStore.time;
    items := home.collected;
  }
}
