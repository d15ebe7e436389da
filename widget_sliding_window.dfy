/**
 * The QWidget sliding panel (Surf_QWidget): the demo widgets laid side by side on a sliding
 * surface of screen-sized panels; the buttons move a focus index one panel at a time and
 * start a property animation towards it.
 */
module SurfWidget {
  import opened Geometry
  import opened Slider
  import AppItem

  const ItemWidth := 350
  const ItemHeight := 600
  /** ITEM_START_X. */
  const ItemStartX := 0
  /** IDX_HOMESCREEN: the panel shown first. */
  const HomeScreen := 0

  type App = AppItem.App

  /** A child widget of the sliding surface: what it shows, its position on the surface and its size. */
  datatype Panel = Panel(app: App, pos: Point, size: Size)

  /** The widgets addDefaultWidgetItems creates, the same five demo applications, each resized to ITEM_WIDTH x ITEM_HEIGHT. */
  function DefaultPanels(): seq<Panel> {
    seq(|AppItem.DefaultApps|, i requires 0 <= i < |AppItem.DefaultApps| =>
      Panel(AppItem.DefaultApps[i], Origin, Size(ItemWidth, ItemHeight)))
  }

  /** The panels after resizeEvent to newSize: panel i resized to newSize and moved to column i. */
  function Resized(panels: seq<Panel>, newSize: Size): seq<Panel> {
    seq(|panels|, i requires 0 <= i < |panels| =>
      panels[i].(size := newSize, pos := Point(ItemStartX + i * newSize.width, 0)))
  }

  /**
   * After a resize the panels tile the surface: the same widgets in the same order, the first
   * at the left edge, each starting where the previous ends, the last ending at the surface's
   * right edge, all with the new size.
   */
  lemma {:induction false} ResizedTiles(panels: seq<Panel>, newSize: Size)
    ensures |Resized(panels, newSize)| == |panels|
    ensures forall i :: 0 <= i < |panels| ==>
      Resized(panels, newSize)[i].app == panels[i].app && Resized(panels, newSize)[i].size == newSize
    ensures |panels| > 0 ==> Resized(panels, newSize)[0].pos == Origin
    ensures forall i :: 0 <= i < |panels| - 1 ==>
      Resized(panels, newSize)[i + 1].pos.x == Resized(panels, newSize)[i].pos.x + newSize.width
    ensures |panels| > 0 ==>
      Resized(panels, newSize)[|panels| - 1].pos.x + newSize.width == newSize.width * |panels|
  {
    var r := Resized(panels, newSize);
    if |panels| > 0 {
      var n := |panels|;
      assert r[n - 1].pos.x == (n - 1) * newSize.width;
      assert (n - 1) * newSize.width + newSize.width == newSize.width * n;
    }
    forall i | 0 <= i < |panels| - 1
      ensures r[i + 1].pos.x == r[i].pos.x + newSize.width
    {
      assert (i + 1) * newSize.width == i * newSize.width + newSize.width;
    }
  }

  /**
   * The buttons' enables agree with the focus moves: the left button is enabled exactly when
   * a left press moves the focus, and likewise the right, on a non-empty panel list.
   */
  lemma ButtonsMatchMoves(k: int, count: int)
    requires count >= 1 && OnWindow(k, count)
    ensures (k != 0) <==> ColumnAfter(k, count, Left) != k
    ensures (k != count - 1) <==> ColumnAfter(k, count, Right) != k
  {
  }

  class SlidingWindow {
    /** m_slidePanelItems. */
    var panels: seq<Panel>
    /** m_idxFocusedItem and m_idxOldFocusedItem. */
    var focused: int
    var oldFocused: int
    /** m_itemSlideOffset: changed only by whole steps, so held as an integer. */
    var itemSlideOffset: int
    /** m_animationSlide: whether it runs and the end value it was last given. */
    var running: bool
    var endValue: int
    var leftEnabled: bool
    var rightEnabled: bool
    /** The size of m_slidingSurface. */
    var surface: Size

    /** The focus index (and the previous one) name a panel, and the slide offset follows the focus. */
    predicate Valid()
      reads this
    {
      && OnWindow(focused, |panels|)
      && OnWindow(oldFocused, |panels|)
      && itemSlideOffset == focused
    }

    /** Each button is enabled unless the focus is at its end of the panel list. */
    predicate ButtonsShow()
      reads this
    {
      leftEnabled == (focused != 0) && rightEnabled == (focused != |panels| - 1)
    }

    /** The constructor: focus on the home screen, the five default panels, the left button disabled. */
    constructor()
      ensures Valid() && panels == DefaultPanels()
      ensures focused == HomeScreen && oldFocused == HomeScreen && itemSlideOffset == 0
      ensures !running && !leftEnabled && rightEnabled
    {
      panels := [];
      focused := HomeScreen;
      oldFocused := HomeScreen;
      itemSlideOffset := 0;
      running := false;
      endValue := 0;
      leftEnabled := true;
      rightEnabled := true;
      new;
      AddDefaultWidgetItems();
      leftEnabled := false;
    }

    /** Adds the five demo widgets in order. */
    method AddDefaultWidgetItems()
      requires Valid() && panels == []
      modifies this
      ensures Valid() && panels == DefaultPanels()
      ensures focused == old(focused) && oldFocused == old(oldFocused) && itemSlideOffset == old(itemSlideOffset)
      ensures running == old(running) && endValue == old(endValue) && surface == old(surface)
      ensures leftEnabled == old(leftEnabled) && rightEnabled == old(rightEnabled)
    {
      AddWidgetItem(Some(Panel(AppItem.DigiFlip, Origin, Size(ItemWidth, ItemHeight))));
      AddWidgetItem(Some(Panel(AppItem.DigitalClock, Origin, Size(ItemWidth, ItemHeight))));
      AddWidgetItem(Some(Panel(AppItem.AnalogClock, Origin, Size(ItemWidth, ItemHeight))));
      AddWidgetItem(Some(Panel(AppItem.WigglyText, Origin, Size(ItemWidth, ItemHeight))));
      AddWidgetItem(Some(Panel(AppItem.ParallaxHome, Origin, Size(ItemWidth, ItemHeight))));
      assert panels == DefaultPanels();
    }

    /** A NULL widget is ignored; otherwise it becomes the last panel. */
    method AddWidgetItem(widget: Option<Panel>)
      requires Valid()
      modifies this
      ensures Valid()
      ensures panels == if widget.None? then old(panels) else old(panels) + [widget.value]
      ensures focused == old(focused) && oldFocused == old(oldFocused) && itemSlideOffset == old(itemSlideOffset)
      ensures running == old(running) && endValue == old(endValue) && surface == old(surface)
      ensures leftEnabled == old(leftEnabled) && rightEnabled == old(rightEnabled)
    {
      if widget == None {
        return;
      }
      panels := panels + [widget.value];
    }

    /**
     * The left button: unless the animation runs, moves the focus one panel back when there is
     * one (and the slide offset with it), then animates towards the slide offset.
     */
    method SlideLeft()
      requires Valid()
      modifies this
      ensures Valid() && panels == old(panels) && surface == old(surface)
      ensures old(running) ==> focused == old(focused) && oldFocused == old(oldFocused)
      ensures old(running) ==> endValue == old(endValue) && leftEnabled == old(leftEnabled) && rightEnabled == old(rightEnabled)
      ensures !old(running) ==> focused == ColumnAfter(old(focused), |panels|, Left) && oldFocused == old(focused)
      ensures !old(running) ==> running && endValue == itemSlideOffset && ButtonsShow()
      ensures running
    {
      if running {
        return;
      }
      oldFocused := focused;
      focused := focused - 1;
      if focused >= 0 {
        itemSlideOffset := itemSlideOffset - 1;
      } else {
        focused := oldFocused;
      }
      endValue := itemSlideOffset;
      running := true;
      leftEnabled := focused != 0;
      rightEnabled := focused != |panels| - 1;
    }

    /** The right button: the mirror image of SlideLeft, towards the last panel. */
    method SlideRight()
      requires Valid()
      modifies this
      ensures Valid() && panels == old(panels) && surface == old(surface)
      ensures old(running) ==> focused == old(focused) && oldFocused == old(oldFocused)
      ensures old(running) ==> endValue == old(endValue) && leftEnabled == old(leftEnabled) && rightEnabled == old(rightEnabled)
      ensures !old(running) ==> focused == ColumnAfter(old(focused), |panels|, Right) && oldFocused == old(focused)
      ensures !old(running) ==> running && endValue == itemSlideOffset && ButtonsShow()
      ensures running
    {
      if running {
        return;
      }
      oldFocused := focused;
      focused := focused + 1;
      if focused <= |panels| - 1 {
        itemSlideOffset := itemSlideOffset + 1;
      } else {
        focused := oldFocused;
      }
      endValue := itemSlideOffset;
      running := true;
      leftEnabled := focused != 0;
      rightEnabled := focused != |panels| - 1;
    }

    /** resizeEvent: the surface becomes count screens wide and every panel fills its own screen. */
    method ResizeEvent(newSize: Size)
      requires Valid()
      modifies this
      ensures Valid()
      ensures surface == Size(newSize.width * |panels|, newSize.height)
      ensures panels == Resized(old(panels), newSize)
      ensures focused == old(focused) && oldFocused == old(oldFocused) && itemSlideOffset == old(itemSlideOffset)
      ensures running == old(running) && endValue == old(endValue)
      ensures leftEnabled == old(leftEnabled) && rightEnabled == old(rightEnabled)
    {
      surface := Size(newSize.width * |panels|, newSize.height);
      var i := 0;
      while i < |panels|
        invariant 0 <= i <= |panels| == |old(panels)|
        invariant forall j :: 0 <= j < i ==> panels[j] == Resized(old(panels), newSize)[j]
        invariant forall j :: i <= j < |panels| ==> panels[j] == old(panels)[j]
        invariant surface == Size(newSize.width * |panels|, newSize.height)
        invariant focused == old(focused) && oldFocused == old(oldFocused) && itemSlideOffset == old(itemSlideOffset)
        invariant running == old(running) && endValue == old(endValue)
        invariant leftEnabled == old(leftEnabled) && rightEnabled == old(rightEnabled)
      {
        panels := panels[i := panels[i].(size := newSize)];
        panels := panels[i := panels[i].(pos := Point(ItemStartX + i * newSize.width, 0))];
        i := i + 1;
      }
      assert panels == Resized(old(panels), newSize);
    }

    /** The animation's end: it stops. */
    method AnimationFinished()
      modifies this
      ensures !running && panels == old(panels) && surface == old(surface)
      ensures focused == old(focused) && oldFocused == old(oldFocused) && itemSlideOffset == old(itemSlideOffset)
      ensures endValue == old(endValue) && leftEnabled == old(leftEnabled) && rightEnabled == old(rightEnabled)
    {
      running := false;
    }
  }
}
