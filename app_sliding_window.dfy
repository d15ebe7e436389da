/**
 * The QGraphicsView sliding window of demo applications (App_Item), built with its control
 * panel: five application widgets side by side in a scene, slid left and right by a timeline
 * that repositions their proxy widgets frame by frame.
 */
module AppItem {
  import opened Geometry
  import opened Slider

  const ItemWidth := 350
  const ItemGap := 200
  /** SLIDE_OFFSET: the distance one button press slides the first item. */
  const SlideOffset := ItemWidth + 50
  /** The distance between neighbouring items as moveItem lays them out. */
  const ItemPitch := ItemWidth + ItemGap

  /** The widgets hosted by the window: the five demo applications, or any other widget. */
  datatype App = DigiFlip | DigitalClock | AnalogClock | WigglyText | ParallaxHome | OtherApp(id: nat)

  /** The widgets addDefaultWidgetItems adds, in order. */
  const DefaultApps: seq<App> := [DigiFlip, DigitalClock, AnalogClock, WigglyText, ParallaxHome]

  /** A QTimeLine reduced to whether it runs and the frame range it was last given. */
  datatype Timeline = Timeline(running: bool, startFrame: int, endFrame: int)

  /** The x position addWidgetItem gives the widget that becomes item k. */
  function SlotX(k: nat): (x: int)
    ensures x == k * ItemPitch
  {
    if k == 0 then k * ItemWidth else k * (ItemWidth + ItemGap)
  }

  /** The proxy positions after adding n widgets to an empty window. */
  function Placed(n: nat): (r: seq<Point>)
    ensures |r| == n
    ensures forall k :: 0 <= k < n ==> r[k] == Point(k * ItemPitch, 0)
  {
    seq(n, k requires 0 <= k < n => Point(SlotX(k), 0))
  }

  /** The layout moveItem(offset) gives the proxies: item i at offset + i * ItemPitch, keeping its y. */
  function Moved(ps: seq<Point>, offset: int): seq<Point> {
    seq(|ps|, i requires 0 <= i < |ps| => Point(offset + i * ItemPitch, ps[i].y))
  }

  /** Neighbouring items are ItemPitch apart after a frame, and every y is kept. */
  lemma MovedSpacing(ps: seq<Point>, offset: int)
    ensures |Moved(ps, offset)| == |ps|
    ensures forall i :: 0 <= i < |ps| ==> Moved(ps, offset)[i].y == ps[i].y
    ensures |ps| > 0 ==> Moved(ps, offset)[0].x == offset
    ensures forall i :: 0 <= i < |ps| - 1 ==> Moved(ps, offset)[i + 1].x == Moved(ps, offset)[i].x + ItemPitch
  {
  }

  /** A frame at offset 0 restores the layout addWidgetItem builds. */
  lemma FrameZeroIsPlacement(n: nat)
    ensures Moved(Placed(n), 0) == Placed(n)
  {
  }

  /** Only the last frame of an animation matters: frames do not depend on earlier frames. */
  lemma FramesForget(ps: seq<Point>, a: int, b: int)
    ensures Moved(Moved(ps, a), b) == Moved(ps, b)
  {
  }

  class SlidingWindow {
    /** slideItems: the hosted widgets. */
    var apps: seq<App>
    /** sceneProxyWidgets: the scene position of each widget's proxy. */
    var proxies: seq<Point>
    /** m_nNewPosOfFirstItem: where the last started slide leaves the first item. */
    var firstItemPos: int
    /** m_timelineItem. */
    var timeline: Timeline
    var leftEnabled: bool
    var rightEnabled: bool

    /** Each widget has its proxy. */
    predicate Valid()
      reads this
    {
      |apps| == |proxies|
    }

    /** The constructor: five default widgets, then slideBy(0). */
    constructor()
      ensures Valid()
      ensures apps == DefaultApps && proxies == Placed(5)
      ensures firstItemPos == 0 && timeline == Timeline(true, 0, 0)
      ensures !leftEnabled && rightEnabled
    {
      apps := [];
      proxies := [];
      firstItemPos := 0;
      timeline := Timeline(false, 0, 0);
      leftEnabled := true;
      rightEnabled := true;
      new;
      AddDefaultWidgetItems();
      SlideBy(0);
    }

    /** Adds the five demo widgets in order. */
    method AddDefaultWidgetItems()
      requires Valid() && apps == [] && proxies == []
      modifies this
      ensures Valid() && apps == DefaultApps && proxies == Placed(5)
      ensures firstItemPos == old(firstItemPos) && timeline == old(timeline)
      ensures leftEnabled == old(leftEnabled) && rightEnabled == old(rightEnabled)
    {
      AddWidgetItem(Some(DigiFlip));
      AddWidgetItem(Some(DigitalClock));
      AddWidgetItem(Some(AnalogClock));
      AddWidgetItem(Some(WigglyText));
      AddWidgetItem(Some(ParallaxHome));
      assert proxies == Placed(5);
    }

    /** A NULL widget is ignored; otherwise the widget and a proxy at its slot are appended. */
    method AddWidgetItem(widget: Option<App>)
      requires Valid()
      modifies this
      ensures Valid()
      ensures widget.None? ==> apps == old(apps) && proxies == old(proxies)
      ensures widget.Some? ==> apps == old(apps) + [widget.value]
      ensures widget.Some? ==> proxies == old(proxies) + [Point(SlotX(|old(apps)|), 0)]
      ensures firstItemPos == old(firstItemPos) && timeline == old(timeline)
      ensures leftEnabled == old(leftEnabled) && rightEnabled == old(rightEnabled)
    {
      if widget.None? {
        return;
      }
      var x;
      if |apps| == 0 {
        x := |apps| * ItemWidth;
      } else {
        x := |apps| * (ItemWidth + ItemGap);
      }
      proxies := proxies + [Point(x, 0)];
      apps := apps + [widget.value];
    }

    /** The left button: slides by +SlideOffset unless the timeline runs or the first item is at 0. */
    method SlideLeft()
      requires Valid()
      modifies this
      ensures Valid() && apps == old(apps) && proxies == old(proxies)
      ensures old(timeline.running) ==> firstItemPos == old(firstItemPos) && timeline == old(timeline)
      ensures old(timeline.running) ==> leftEnabled == old(leftEnabled) && rightEnabled == old(rightEnabled)
      ensures !old(timeline.running) ==> firstItemPos == AfterLeft(old(firstItemPos), SlideOffset)
      ensures !old(timeline.running) && CanSlideLeft(old(firstItemPos)) ==>
        timeline == Timeline(true, old(firstItemPos), firstItemPos) && ButtonsShow()
      ensures !CanSlideLeft(old(firstItemPos)) ==> timeline == old(timeline)
      ensures !CanSlideLeft(old(firstItemPos)) ==> leftEnabled == old(leftEnabled) && rightEnabled == old(rightEnabled)
    {
      if timeline.running {
        return;
      }
      if !(firstItemPos >= StartX) {
        SlideBy(SlideOffset);
      }
    }

    /** The right button: slides by -SlideOffset unless the timeline runs or the first item is count - 1 steps left of the start. */
    method SlideRight()
      requires Valid()
      modifies this
      ensures Valid() && apps == old(apps) && proxies == old(proxies)
      ensures old(timeline.running) ==> firstItemPos == old(firstItemPos) && timeline == old(timeline)
      ensures old(timeline.running) ==> leftEnabled == old(leftEnabled) && rightEnabled == old(rightEnabled)
      ensures !old(timeline.running) ==> firstItemPos == AfterRight(old(firstItemPos), SlideOffset, |proxies|)
      ensures !old(timeline.running) && CanSlideRight(old(firstItemPos), SlideOffset, |proxies|) ==>
        timeline == Timeline(true, old(firstItemPos), firstItemPos) && ButtonsShow()
      ensures !CanSlideRight(old(firstItemPos), SlideOffset, |proxies|) ==> timeline == old(timeline)
      ensures !CanSlideRight(old(firstItemPos), SlideOffset, |proxies|) ==>
        leftEnabled == old(leftEnabled) && rightEnabled == old(rightEnabled)
    {
      if timeline.running {
        return;
      }
      if !(firstItemPos <= -(SlideOffset * (|proxies| - 1))) {
        SlideBy(-SlideOffset);
      }
    }

    /** Each button is enabled exactly when a press on it would slide. */
    predicate ButtonsShow()
      reads this
    {
      && leftEnabled == CanSlideLeft(firstItemPos)
      && rightEnabled == CanSlideRight(firstItemPos, SlideOffset, |proxies|)
    }

    /** Starts the timeline over frames old position .. old position + distance and records the new position. */
    method SlideBy(distance: int)
      requires Valid()
      modifies this
      ensures Valid() && apps == old(apps) && proxies == old(proxies)
      ensures firstItemPos == old(firstItemPos) + distance
      ensures timeline == Timeline(true, old(firstItemPos), old(firstItemPos) + distance)
      ensures ButtonsShow()
    {
      var itemStart := firstItemPos;
      var itemEnd := firstItemPos + distance;
      timeline := Timeline(true, itemStart, itemEnd);
      firstItemPos := itemEnd;
      leftEnabled := !(firstItemPos >= StartX);
      rightEnabled := !(firstItemPos <= -(SlideOffset * (|proxies| - 1)));
    }

    /** A timeline frame: lays the proxies out from offset, but only when there is more than one. */
    method MoveItem(offset: int)
      requires Valid()
      modifies this
      ensures Valid() && apps == old(apps)
      ensures proxies == if |old(proxies)| > 1 then Moved(old(proxies), offset) else old(proxies)
      ensures firstItemPos == old(firstItemPos) && timeline == old(timeline)
      ensures leftEnabled == old(leftEnabled) && rightEnabled == old(rightEnabled)
    {
      if |proxies| > 1 {
        var i := 0;
        while i < |proxies|
          invariant 0 <= i <= |proxies| == |old(proxies)|
          invariant forall j :: 0 <= j < i ==> proxies[j] == Moved(old(proxies), offset)[j]
          invariant forall j :: i <= j < |proxies| ==> proxies[j] == old(proxies)[j]
          invariant apps == old(apps) && firstItemPos == old(firstItemPos) && timeline == old(timeline)
          invariant leftEnabled == old(leftEnabled) && rightEnabled == old(rightEnabled)
        {
          proxies := proxies[i := Point(offset + i * (ItemWidth + ItemGap), proxies[i].y)];
          i := i + 1;
        }
        assert proxies == Moved(old(proxies), offset);
      }
    }

    /** The timeline's finished signal: the timeline stops; moveItemFinish itself only logs. */
    method TimelineFinished()
      modifies this
      ensures timeline == old(timeline).(running := false)
      ensures apps == old(apps) && proxies == old(proxies) && firstItemPos == old(firstItemPos)
      ensures leftEnabled == old(leftEnabled) && rightEnabled == old(rightEnabled)
    {
      timeline := timeline.(running := false);
    }
  }
}
