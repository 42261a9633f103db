/**
 * The tool catalogue of the page root (`toolActions`): each tool with its functions and
 * the time it saves, and the `Array.find` lookup by id that the click handler uses.
 */
module ToolCatalogue {
  import opened Wrappers
  import opened Text
  import opened Duration
  import opened DurationFacts

  /** One action a tool offers, with the time it saves as display text. */
  datatype ToolFunction = ToolFunction(name: string, time: string)

  /** A tool of the carousel. `time` is the tool-level saving that "Add to workflow" adds. */
  datatype Tool = Tool(id: string, tool: string, functions: seq<ToolFunction>, time: string, iconPath: string, color: string)

  const SlackTool: Tool :=
    Tool("slack", "Slack",
      [
        ToolFunction("Post Channel Message", "1 min"),
        ToolFunction("Create Announcement", "2 min"),
        ToolFunction("Fetch Recent Messages", "1 min"),
        ToolFunction("Invite User to Channel", "1.5 min")
      ],
      "3 min", "/textures/Slack.png", "#000000")

  const GmailTool: Tool :=
    Tool("gmail", "Gmail",
      [
        ToolFunction("Send Email", "2 min"),
        ToolFunction("Draft Reply", "1.5 min"),
        ToolFunction("Search Inbox", "1 min"),
        ToolFunction("Label or Archive Message", "0.5 min")
      ],
      "2 min", "/textures/Gmail.png", "#000000")

  const DriveTool: Tool :=
    Tool("gdrive", "Google Drive",
      [
        ToolFunction("Upload File", "1.5 min"),
        ToolFunction("Search for Document", "1 min"),
        ToolFunction("Share File with User", "1.5 min"),
        ToolFunction("List Files in Folder", "0.5 min")
      ],
      "1.5 min", "/textures/Google Drive.png", "#000000")

  const NotionTool: Tool :=
    Tool("notion", "Notion",
      [
        ToolFunction("Create New Page", "1 min"),
        ToolFunction("Update Database Entry", "1.5 min"),
        ToolFunction("Query Tasks by Status", "1 min"),
        ToolFunction("Add Comment to Page", "0.5 min")
      ],
      "1 min", "/textures/Notion.png", "#000000")

  const LinearTool: Tool :=
    Tool("linear", "Linear",
      [
        ToolFunction("Create Issue", "1.5 min"),
        ToolFunction("Update Ticket Status", "1 min"),
        ToolFunction("Assign Issue to Teammate", "1 min"),
        ToolFunction("List Open Issues", "0.5 min")
      ],
      "2.5 min", "/textures/Linear.png", "#000000")

  const SheetsTool: Tool :=
    Tool("gsheets", "Google Sheets",
      [
        ToolFunction("Append Row", "1 min"),
        ToolFunction("Update Cell Range", "1.5 min"),
        ToolFunction("Read Spreadsheet Data", "1 min"),
        ToolFunction("Create New Sheet", "1.5 min")
      ],
      "3 min", "/textures/Google Sheets.png", "#000000")

  const RedditTool: Tool :=
    Tool("reddit", "Reddit",
      [
        ToolFunction("Fetch Top Posts", "1 min"),
        ToolFunction("Comment on Thread", "1.5 min"),
        ToolFunction("Upvote Post", "0.5 min"),
        ToolFunction("Submit New Post", "2 min")
      ],
      "2 min", "/textures/Reddit.png", "#000000")

  const TrelloTool: Tool :=
    Tool("trello", "Trello",
      [
        ToolFunction("Create Card", "1.5 min"),
        ToolFunction("Move Card Between Lists", "1 min"),
        ToolFunction("Add Comment to Card", "0.5 min"),
        ToolFunction("List Cards on Board", "1 min")
      ],
      "2.5 min", "/textures/Trello.png", "#000000")

  const FigmaTool: Tool :=
    Tool("figma", "Figma",
      [
        ToolFunction("List Frames in File", "1 min"),
        ToolFunction("Fetch Comments", "1 min"),
        ToolFunction("Get Component Metadata", "1.5 min"),
        ToolFunction("Render Design Thumbnail", "2 min")
      ],
      "3 min", "/textures/Figma.png", "#000000")

  const SearchTool: Tool :=
    Tool("gsearch", "Google",
      [
        ToolFunction("Search Query", "1 min"),
        ToolFunction("Get Top Result Summary", "1.5 min"),
        ToolFunction("Find Related Articles", "2 min"),
        ToolFunction("Extract URLs from Results", "1 min")
      ],
      "2 min", "/textures/Google.png", "#000000")

  const GitHubTool: Tool :=
    Tool("github", "GitHub",
      [
        ToolFunction("Create Issue", "1.5 min"),
        ToolFunction("List Pull Requests", "1 min"),
        ToolFunction("Comment on PR", "1 min"),
        ToolFunction("Fetch Repository Info", "1 min")
      ],
      "2.5 min", "/textures/Github.png", "#000000")

  /** The catalogue, in carousel order. */
  const ToolActions: seq<Tool> :=
    [SlackTool, GmailTool, DriveTool, NotionTool, LinearTool, SheetsTool, RedditTool, TrelloTool, FigmaTool, SearchTool, GitHubTool]

  /** Index of the first tool whose id is `id`, or |tools| when there is none. */
  function FindIndex(tools: seq<Tool>, id: string): (k: nat)
    ensures k <= |tools|
    ensures forall j :: 0 <= j < k ==> tools[j].id != id
    ensures k < |tools| ==> tools[k].id == id
  {
    if tools == [] || tools[0].id == id then 0
    else 1 + FindIndex(tools[1..], id)
  }

  /** `tools.find((t) => t.id === id)`: the first tool with that id, if any. */
  function Find(tools: seq<Tool>, id: string): (r: Option<Tool>)
    ensures r.Some? ==> r.value.id == id
    ensures r.None? <==> forall i :: 0 <= i < |tools| ==> tools[i].id != id
  {
    var k := FindIndex(tools, id);
    if k < |tools| then Some(tools[k]) else None
  }

  /** `find` returns the first tool, in catalogue order, that carries the id. */
  lemma {:induction false} FindFirst(tools: seq<Tool>, k: nat)
    requires k < |tools|
    requires forall j :: 0 <= j < k ==> tools[j].id != tools[k].id
    ensures Find(tools, tools[k].id) == Some(tools[k])
  {
  }

  /** The catalogue has eleven tools and no two share an id. */
  lemma CatalogueIdsDistinct()
    ensures |ToolActions| == 11
    ensures forall i, j :: 0 <= i < j < |ToolActions| ==> ToolActions[i].id != ToolActions[j].id
  {
  }

  /** Looking a catalogue tool up by its own id finds that tool. */
  lemma FindCatalogue(i: nat)
    requires i < |ToolActions|
    ensures Find(ToolActions, ToolActions[i].id) == Some(ToolActions[i])
  {
    CatalogueIdsDistinct();
    FindFirst(ToolActions, i);
  }

  lemma OneMinute()
    ensures ParseTimeString("1 min") == Finite(1.0)
  {
    assert "1" + " " + "min" == "1 min";
    DigitsValue("1", 1);
    ParseMinutes("1", "", false);
  }

  lemma ThreeMinutes()
    ensures ParseTimeString("3 min") == Finite(3.0)
  {
    assert "3" + " " + "min" == "3 min";
    DigitsValue("3", 3);
    ParseMinutes("3", "", false);
  }

  lemma TwoAndAHalfMinutes()
    ensures ParseTimeString("2.5 min") == Finite(2.5)
  {
    assert "2" + "." + "5" + " " + "min" == "2.5 min";
    assert DecimalValue("2", "5") == 2.5 by {
      DigitsValue("2", 2);
      OneFractionDigit('5', 5);
    }
    ParseMinutes("2", "5", true);
  }

  /**
   * Every tool-level time in the catalogue parses to a finite number of minutes between
   * 1 and 3, so adding it to the running total never produces NaN.
   */
  lemma CatalogueTimesParse(i: nat)
    requires i < |ToolActions|
    ensures ParseTimeString(ToolActions[i].time).Finite?
    ensures 1.0 <= ParseTimeString(ToolActions[i].time).value <= 3.0
  {
    var t := ToolActions[i].time;
    assert t in {"1 min", "1.5 min", "2 min", "2.5 min", "3 min"};
    if t == "1 min" { OneMinute(); }
    else if t == "1.5 min" { ExampleFraction(); }
    else if t == "2 min" { ExampleMinutes(); }
    else if t == "2.5 min" { TwoAndAHalfMinutes(); }
    else { ThreeMinutes(); }
  }

  /** The first two catalogue entries: Slack saves 3 minutes and Gmail 2. */
  lemma SlackAndGmailTimes()
    ensures ToolActions[0].id == "slack" && ParseTimeString(ToolActions[0].time) == Finite(3.0)
    ensures ToolActions[1].id == "gmail" && ParseTimeString(ToolActions[1].time) == Finite(2.0)
  {
    assert ToolActions[0].time == "3 min" && ToolActions[1].time == "2 min";
    ThreeMinutes();
    ExampleMinutes();
  }
}
