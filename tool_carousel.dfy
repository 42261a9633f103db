/**
 * The tool carousel: three copies of the catalogue in a scrolling column whose offset is
 * wrapped back into the middle copy, and the detection of the tool nearest the centre.
 * Element geometry is an input: the container's centre and the centre of each rendered item.
 */
module ToolCarousel {
  import opened Wrappers
  import opened Arith
  import opened ToolCatalogue
  import opened ToolStore

  const VisibleCount: int := 5
  const IconSize: int := 56
  const Gap: int := 32
  const ItemTotal: int := IconSize + Gap
  const ContainerHeight: int := VisibleCount * ItemTotal - Gap

  /** Each item takes 88 pixels, and the container shows five of them less one gap. */
  lemma LayoutConstants()
    ensures ItemTotal == 88 && ContainerHeight == 408
  {
  }

  /** The height of one copy of `n` tools, in pixels. */
  function TotalHeight(n: nat): (h: real)
    ensures h >= 0.0
  {
    (n * ItemTotal) as real
  }

  /** `[...toolActions, ...toolActions, ...toolActions]`: render index `i` shows tool `i mod N`. */
  function RenderList(tools: seq<Tool>): (r: seq<Tool>)
    ensures |r| == 3 * |tools|
    ensures forall i :: 0 <= i < |r| ==> r[i] == tools[i % |tools|]
  {
    var n := |tools|;
    assert forall i :: 0 <= i < 3 * n ==> (tools + tools + tools)[i] == tools[i % n] by {
      forall i | 0 <= i < 3 * n
        ensures (tools + tools + tools)[i] == tools[i % n]
      {
        if i < n {
          ModUnique(i, n, 0, i);
        } else if i < 2 * n {
          ModUnique(i, n, 1, i - n);
        } else {
          ModUnique(i, n, 2, i - 2 * n);
        }
      }
    }
    tools + tools + tools
  }

  /** Render indices one copy apart show the same tool. */
  lemma CopiesAgree(tools: seq<Tool>, i: nat)
    requires i + |tools| < 3 * |tools|
    ensures RenderList(tools)[i] == RenderList(tools)[i + |tools|]
  {
    var n := |tools|;
    ModUnique(i + n, n, i / n + 1, i % n);
  }

  /** The scroll handler's correction of an offset outside the middle copy. */
  function Wrap(pos: real, total: real): (r: real)
    ensures r == pos - total || r == pos || r == pos + total
    ensures total > 0.0 && -total < pos < 3.0 * total ==> 0.0 < r < 2.0 * total
  {
    if pos >= total * 2.0 then pos - total
    else if pos <= 0.0 then pos + total
    else pos
  }

  /** The scroll event that the handler's own correction raises changes nothing further. */
  lemma WrapIdempotent(pos: real, total: real)
    requires total > 0.0 && -total < pos < 3.0 * total
    ensures Wrap(Wrap(pos, total), total) == Wrap(pos, total)
  {
  }

  function Distance(a: real, b: real): (d: real)
    ensures d >= 0.0
    ensures d == 0.0 <==> a == b
  {
    if a >= b then a - b else b - a
  }

  /**
   * The child the centring loop settles on: nearest to the container's centre, and the first
   * of several equally near ones, because the loop replaces its candidate only on a strict `<`.
   */
  function FirstClosest(center: real, centers: seq<real>): (k: nat)
    requires centers != []
    ensures k < |centers|
    ensures forall j :: 0 <= j < |centers| ==> Distance(center, centers[k]) <= Distance(center, centers[j])
    ensures forall j :: 0 <= j < k ==> Distance(center, centers[j]) > Distance(center, centers[k])
  {
    var last := |centers| - 1;
    if last == 0 then 0
    else
      var k := FirstClosest(center, centers[..last]);
      assert forall j :: 0 <= j < last ==> centers[..last][j] == centers[j];
      if Distance(center, centers[last]) < Distance(center, centers[k]) then last else k
  }

  /** What the centring effect publishes: null without children, else the base tool of the nearest child. */
  function CenteredTool(tools: seq<Tool>, center: real, centers: seq<real>): (r: Option<Tool>)
    requires |centers| == 3 * |tools|
    ensures r.None? <==> tools == []
    ensures r.Some? ==> exists i :: 0 <= i < |tools| && r.value == tools[i]
  {
    if centers == [] then None
    else
      var i := FirstClosest(center, centers) % |tools|;
      Some(tools[i])
  }

  class Carousel {
    /** The catalogue the carousel shows. */
    const tools: seq<Tool>
    /** The store the centring effect publishes to. */
    const store: ToolStore
    /** The container element's scroll offset. */
    var elScrollTop: real
    /** The component's `scrollTop` state, which re-runs the centring effect. */
    var scrollTop: real
    var isProgrammaticScroll: bool
    /** The 250 ms timers started by `scrollToItem` that have not fired yet. */
    var pendingClears: nat

    /** Mounting: the offset starts at the beginning of the middle copy. */
    constructor (tools: seq<Tool>, store: ToolStore)
      ensures this.tools == tools && this.store == store
      ensures elScrollTop == TotalHeight(|tools|) && scrollTop == 0.0
      ensures !isProgrammaticScroll && pendingClears == 0
    {
      this.tools := tools;
      this.store := store;
      elScrollTop := TotalHeight(|tools|);
      scrollTop := 0.0;
      isProgrammaticScroll := false;
      pendingClears := 0;
    }

    /** The container scrolled to `pos`: the scroll handler wraps it, unless the scroll is programmatic. */
    method OnScroll(pos: real)
      modifies this
      ensures elScrollTop == if old(isProgrammaticScroll) then pos else Wrap(pos, TotalHeight(|tools|))
      ensures scrollTop == elScrollTop
      ensures isProgrammaticScroll == old(isProgrammaticScroll) && pendingClears == old(pendingClears)
    {
      elScrollTop := pos;
      var totalHeight := TotalHeight(|tools|);
      if !isProgrammaticScroll {
        if pos >= totalHeight * 2.0 {
          elScrollTop := pos - totalHeight;
        } else if pos <= 0.0 {
          elScrollTop := pos + totalHeight;
        }
      }
      scrollTop := elScrollTop;
    }

    /**
     * The centring effect: scans the rendered children in order and publishes the base tool
     * of the nearest one (or null when there are none) to the store.
     */
    method DetectCentered(containerCenter: real, itemCenters: seq<real>)
      requires |itemCenters| == 3 * |tools|
      modifies store
      ensures store.centeredTool == CenteredTool(tools, containerCenter, itemCenters)
      ensures store.handleClick == old(store.handleClick)
    {
      var baseLength := |tools|;
      var closestTool: Option<Tool> := None;
      var closestIndex := 0;
      var closestDistance: Option<real> := None;
      var i := 0;
      while i < |itemCenters|
        invariant 0 <= i <= |itemCenters|
        invariant i == 0 ==> closestTool.None? && closestDistance.None?
        invariant i > 0 ==> closestIndex == FirstClosest(containerCenter, itemCenters[..i])
        invariant i > 0 ==> closestDistance == Some(Distance(containerCenter, itemCenters[closestIndex]))
        invariant i > 0 ==> closestTool == Some(tools[closestIndex % baseLength])
      {
        assert itemCenters[..i + 1][..i] == itemCenters[..i];
        var distance := Distance(containerCenter, itemCenters[i]);
        if closestDistance.None? || distance < closestDistance.value {
          closestDistance := Some(distance);
          closestIndex := i;
          closestTool := Some(tools[i % baseLength]);
        }
        i := i + 1;
      }
      assert itemCenters[..|itemCenters|] == itemCenters;
      store.SetCenteredTool(closestTool);
    }

    /**
     * A click on a rendered item: with the container and the item both present, marks the
     * scroll as programmatic, starts the 250 ms timer and returns the smooth-scroll target,
     * the current offset moved by the item's distance from the centre; otherwise does nothing.
     */
    method ScrollToItem(containerCenter: Option<real>, itemCenter: Option<real>) returns (target: Option<real>)
      modifies this
      ensures containerCenter.None? || itemCenter.None? ==>
                target.None? && isProgrammaticScroll == old(isProgrammaticScroll) && pendingClears == old(pendingClears)
      ensures containerCenter.Some? && itemCenter.Some? ==>
                target == Some(old(elScrollTop) + (itemCenter.value - containerCenter.value))
                && isProgrammaticScroll && pendingClears == old(pendingClears) + 1
      ensures elScrollTop == old(elScrollTop) && scrollTop == old(scrollTop)
    {
      if containerCenter.None? || itemCenter.None? {
        return None;
      }
      var delta := itemCenter.value - containerCenter.value;
      isProgrammaticScroll := true;
      pendingClears := pendingClears + 1;
      target := Some(elScrollTop + delta);
    }

    /** One of the 250 ms timers fires and clears the flag, even if a later click started another. */
    method ClearTimerFired()
      requires pendingClears > 0
      modifies this
      ensures !isProgrammaticScroll && pendingClears == old(pendingClears) - 1
      ensures elScrollTop == old(elScrollTop) && scrollTop == old(scrollTop)
    {
      isProgrammaticScroll := false;
      pendingClears := pendingClears - 1;
    }
  }
}
