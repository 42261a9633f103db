/**
 * The description panel under the carousel: the centred tool's name, one of its functions
 * chosen with the previous/next buttons, and the "Add to workflow" button.
 */
module ToolSelection {
  import opened Wrappers
  import opened Arith
  import opened ToolCatalogue
  import opened ToolStore

  /** JavaScript's `%` on integers: the remainder takes the sign of the dividend. */
  function JsRem(a: int, b: int): (r: int)
    requires b > 0
    ensures a >= 0 ==> 0 <= r < b
    ensures a < 0 ==> -b < r <= 0
  {
    if a >= 0 then a % b else -((-a) % b)
  }

  /** The "previous" button: index 0 goes to the last function, anything else steps back by one. */
  function PrevIndex(i: int, len: nat): (r: int)
    ensures 0 <= i < len ==> 0 <= r < len && (r + 1) % len == i
  {
    if i == 0 then len - 1 else i - 1
  }

  /** The "next" button: a step forward modulo the number of functions, or 0 when there are none. */
  function NextIndex(i: int, len: nat): (r: int)
    ensures len == 0 ==> r == 0
    ensures len > 0 && i + 1 >= 0 ==> 0 <= r < len && r == (i + 1) % len
  {
    if len > 0 then JsRem(i + 1, len) else 0
  }

  /** On an index in range, both buttons stay in range and undo each other. */
  lemma IndexCycling(i: int, len: nat)
    requires 0 <= i < len
    ensures 0 <= PrevIndex(i, len) < len && 0 <= NextIndex(i, len) < len
    ensures NextIndex(PrevIndex(i, len), len) == i
    ensures PrevIndex(NextIndex(i, len), len) == i
  {
    if i + 1 < len {
      ModUnique(i + 1, len, 0, i + 1);
    } else {
      ModUnique(i + 1, len, 1, 0);
    }
    if i == 0 {
      ModUnique(len, len, 1, 0);
    } else {
      ModUnique(i, len, 0, i);
    }
  }

  /** The index after pressing "next" `k` times. */
  function NextTimes(i: int, len: nat, k: nat): (r: int)
    ensures 0 <= i < len ==> 0 <= r < len
  {
    if k == 0 then i else NextIndex(NextTimes(i, len, k - 1), len)
  }

  /** Pressing "next" `k` times from an index in range moves it `k` places round the cycle. */
  lemma {:induction false} NextTimesCycles(i: int, len: nat, k: nat)
    requires 0 <= i < len
    ensures NextTimes(i, len, k) == (i + k) % len
  {
    if k == 0 {
      ModUnique(i, len, 0, i);
    } else {
      NextTimesCycles(i, len, k - 1);
      var x := i + k - 1;
      assert NextTimes(i, len, k) == NextIndex(x % len, len) == (x % len + 1) % len;
      ModSucc(x, len);
    }
  }

  lemma ModSucc(x: nat, n: nat)
    requires n > 0
    ensures (x % n + 1) % n == (x + 1) % n
  {
    var q, r := x / n, x % n;
    assert x == q * n + r;
    if r + 1 < n {
      ModUnique(r + 1, n, 0, r + 1);
      ModUnique(x + 1, n, q, r + 1);
    } else {
      ModUnique(r + 1, n, 1, 0);
      assert x + 1 == q * n + n;
      assert q * n + n == (q + 1) * n;
      ModUnique(x + 1, n, q + 1, 0);
    }
  }

  /** `functions?.[index]`: the selected function, undefined when the index is out of range. */
  function CurrentFunc(tool: Tool, index: int): (r: Option<ToolFunction>)
    ensures r.Some? <==> 0 <= index < |tool.functions|
    ensures r.Some? ==> r.value == tool.functions[index]
  {
    if 0 <= index < |tool.functions| then Some(tool.functions[index]) else None
  }

  /** Every catalogue tool offers four functions. */
  lemma CatalogueFunctionCounts(i: nat)
    requires i < |ToolActions|
    ensures |ToolActions[i].functions| == 4
  {
  }

  /**
   * The index is kept across a change of the centred tool, so a function is shown for the
   * new tool exactly when the old index is within the new tool's list; in the catalogue,
   * where every list has four entries, an index the buttons produced is always within it.
   */
  lemma IndexSurvivesToolChange(i: nat, index: int)
    requires i < |ToolActions| && 0 <= index < 4
    ensures CurrentFunc(ToolActions[i], index).Some?
    ensures CurrentFunc(ToolActions[i], PrevIndex(index, 4)).Some?
    ensures CurrentFunc(ToolActions[i], NextIndex(index, 4)).Some?
  {
    CatalogueFunctionCounts(i);
    IndexCycling(index, 4);
  }

  /** What the panel shows: the tool's name, the selected function if any, and the ripple. */
  datatype PanelView = PanelView(toolName: string, func: Option<ToolFunction>, ripple: bool)

  /** The panel renders nothing without a centred tool; the ripple shows until the first add. */
  function Panel(centeredTool: Option<Tool>, index: int, clicked: bool): (v: Option<PanelView>)
    ensures v.None? <==> centeredTool.None?
    ensures v.Some? ==> v.value.toolName == centeredTool.value.tool
                        && v.value.func == CurrentFunc(centeredTool.value, index)
                        && (v.value.ripple <==> !clicked)
  {
    match centeredTool
    case None => None
    case Some(t) => Some(PanelView(t.tool, CurrentFunc(t, index), !clicked))
  }

  /** A call the "Add to workflow" button makes: the installed handler, applied to the tool's id. */
  datatype Dispatch = Dispatch(handler: ClickHandler, id: string)

  class ToolDescription {
    /** The store the panel reads the centred tool and the handler from. */
    const store: ToolStore
    var index: int
    var clicked: bool

    constructor (store: ToolStore)
      ensures this.store == store && index == 0 && !clicked
    {
      this.store := store;
      index := 0;
      clicked := false;
    }

    /** What the panel shows: nothing without a centred tool, else its name, the chosen function and the ripple. */
    function View(): (v: Option<PanelView>)
      reads this, store
      ensures v.None? <==> store.centeredTool.None?
      ensures v.Some? ==> v.value.toolName == store.centeredTool.value.tool
                          && v.value.func == CurrentFunc(store.centeredTool.value, index)
                          && (v.value.ripple <==> !clicked)
    {
      Panel(store.centeredTool, index, clicked)
    }

    /** The "previous" button, which exists only while a tool is centred. */
    method OnPrev()
      modifies this
      ensures store.centeredTool.None? ==> index == old(index)
      ensures store.centeredTool.Some? ==> index == PrevIndex(old(index), |store.centeredTool.value.functions|)
      ensures clicked == old(clicked)
    {
      if store.centeredTool.Some? {
        var i := index;
        index := if i == 0 then |store.centeredTool.value.functions| - 1 else i - 1;
      }
    }

    /** The "next" button, which exists only while a tool is centred. */
    method OnNext()
      modifies this
      ensures store.centeredTool.None? ==> index == old(index)
      ensures store.centeredTool.Some? ==> index == NextIndex(old(index), |store.centeredTool.value.functions|)
      ensures clicked == old(clicked)
    {
      if store.centeredTool.Some? {
        var len := |store.centeredTool.value.functions|;
        var i := index;
        index := if len > 0 then JsRem(i + 1, len) else 0;
      }
    }

    /**
     * "Add to workflow": sets `clicked` for good and, when a handler is installed, calls it
     * with the centred tool's id (returned here for the page to run).
     */
    method OnAddToWorkflow() returns (dispatch: Option<Dispatch>)
      modifies this
      ensures store.centeredTool.None? ==> dispatch.None? && clicked == old(clicked)
      ensures store.centeredTool.Some? ==> clicked
      ensures store.centeredTool.Some? && store.handleClick.Some? ==>
                dispatch == Some(Dispatch(store.handleClick.value, store.centeredTool.value.id))
      ensures store.handleClick.None? ==> dispatch.None?
      ensures index == old(index)
    {
      dispatch := None;
      if store.centeredTool.Some? {
        clicked := true;
        if store.handleClick.Some? {
          dispatch := Some(Dispatch(store.handleClick.value, store.centeredTool.value.id));
        }
      }
    }
  }
}
