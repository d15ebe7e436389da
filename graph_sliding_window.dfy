/**
 * The QGraphicsView picture slider (Graph_Item), built with its control panel and page
 * numbers: one picture per screen-wide slot, centred in it, with a page number at its
 * bottom-right corner; a timeline slides the pictures a screen at a time.
 */
module GraphItem {
  import opened Geometry
  import opened Slider

  /** The view's fixed size, which width() and height() return. */
  const Width := 1024
  const Height := 600
  /** SLIDE_OFFSET: one screen. */
  const SlideOffset := Width
  const PageNumOffsetX := 50
  const PageNumOffsetY := 30

  /** A QPixmap by its size; a pixmap with no data (an image file that failed to load) is null. */
  datatype Pixmap = Pixmap(width: nat, height: nat) {
    predicate IsNull() { width == 0 || height == 0 }
  }

  /** A QGraphicsPixmapItem: its pixmap and its scene position. */
  datatype PixmapItem = PixmapItem(pixmap: Pixmap, pos: Point)

  /** A QGraphicsSimpleTextItem showing "P.<page>", and its scene position. */
  datatype PageNumber = PageNumber(page: nat, pos: Point)

  /** The two item lists: m_slideItems and m_slidePgNumItems. */
  datatype Scene = Scene(items: seq<PixmapItem>, numbers: seq<PageNumber>)

  /** The margin that centres an extent in a room it is narrower than, and 0 otherwise. */
  function Margin(room: int, extent: int): (m: int)
    ensures extent < room ==> m * 2 <= room - extent <= m * 2 + 1
    ensures extent >= room ==> m == 0
  {
    if extent < room then (room - extent) / 2 else 0
  }

  /** Where setImageItemPos puts a picture that becomes item count: centred in slot count. */
  function SlotPos(count: nat, p: Pixmap): Point {
    Point(count * SlideOffset + Margin(Width, p.width), 0 + Margin(Height, p.height))
  }

  /** Where a page number goes: PageNumOffset inside the bottom-right corner of its picture. */
  function NumberPos(item: PixmapItem): Point {
    Point(item.pos.x + item.pixmap.width - PageNumOffsetX, item.pos.y + item.pixmap.height - PageNumOffsetY)
  }

  /** Every picture is a real image with its own page number at its corner. */
  predicate Paired(s: Scene) {
    && |s.numbers| == |s.items|
    && (forall i :: 0 <= i < |s.items| ==> !s.items[i].pixmap.IsNull())
    && (forall i :: 0 <= i < |s.items| ==> s.numbers[i].pos == NumberPos(s.items[i]))
  }

  /** Every picture sits centred in the slot of its index, as setImageItemPos leaves it. */
  predicate OnSlots(items: seq<PixmapItem>) {
    forall i :: 0 <= i < |items| ==> items[i].pos == SlotPos(i, items[i].pixmap)
  }

  /**
   * One pass of the loop body of addImages on a screen-sized pixmap: setImageItemPos, then
   * setImageItemNoPos for page number page. A null pixmap is skipped by both calls.
   */
  function AddImage(s: Scene, p: Pixmap, page: nat): Scene {
    if p.IsNull() then s
    else
      var item := PixmapItem(p, SlotPos(|s.items|, p));
      Scene(s.items + [item], s.numbers + [PageNumber(page, NumberPos(item))])
  }

  /** The scene addImages builds from the directory's pixmaps, page numbers counting files from 1. */
  function Album(images: seq<Pixmap>): Scene
    decreases |images|
  {
    if images == [] then Scene([], [])
    else AddImage(Album(images[..|images| - 1]), images[|images| - 1], |images|)
  }

  /** The picture list addImages builds is paired with its page numbers and every picture is on its slot. */
  lemma {:induction false} AlbumPaired(images: seq<Pixmap>)
    ensures Paired(Album(images)) && OnSlots(Album(images).items)
    ensures |Album(images).items| <= |images|
    decreases |images|
  {
    if images != [] {
      AlbumPaired(images[..|images| - 1]);
    }
  }

  /** A picture moved by a frame at offset: slot i from offset, still centred, y kept. */
  function MovedItem(item: PixmapItem, i: int, offset: int): PixmapItem {
    item.(pos := Point(offset + i * Width + Margin(Width, item.pixmap.width), item.pos.y))
  }

  /** The scene after moveItem(offset): every picture moved, and its page number after it. */
  function Moved(s: Scene, offset: int): Scene
    requires |s.items| <= |s.numbers|
  {
    Scene(
      seq(|s.items|, i requires 0 <= i < |s.items| => MovedItem(s.items[i], i, offset)),
      seq(|s.numbers|, i requires 0 <= i < |s.numbers| =>
        if i < |s.items| then s.numbers[i].(pos := NumberPos(MovedItem(s.items[i], i, offset))) else s.numbers[i]))
  }

  /** A frame keeps each page number with its picture. */
  lemma MovedKeepsPairing(s: Scene, offset: int)
    requires Paired(s)
    ensures Paired(Moved(s, offset))
    ensures forall i :: 0 <= i < |s.items| ==> Moved(s, offset).items[i].pixmap == s.items[i].pixmap
  {
  }

  /** A frame at offset 0 restores the centred layout addImages builds. */
  lemma FrameZeroIsPlacement(s: Scene)
    requires Paired(s) && OnSlots(s.items)
    ensures Moved(s, 0) == s
  {
    var m := Moved(s, 0);
    assert m.items == s.items by {
      forall i | 0 <= i < |s.items|
        ensures m.items[i] == s.items[i]
      {
        assert s.items[i].pos == SlotPos(i, s.items[i].pixmap);
      }
    }
  }

  /** Only the last frame matters: frames do not depend on earlier frames. */
  lemma FramesForget(s: Scene, a: int, b: int)
    requires Paired(s)
    ensures |Moved(s, a).items| <= |Moved(s, a).numbers|
    ensures Moved(Moved(s, a), b) == Moved(s, b)
  {
  }

  // The loop body of addImages and moveItem as the source writes them.

  /** setImageItemPos places and records a picture even when its pixmap is null; setImageItemNoPos then skips it. */
  function AddImageAsWritten(s: Scene, p: Pixmap, page: nat): Scene {
    var item := PixmapItem(p, SlotPos(|s.items|, p));
    Scene(s.items + [item], if p.IsNull() then s.numbers else s.numbers + [PageNumber(page, NumberPos(item))])
  }

  function AlbumAsWritten(images: seq<Pixmap>): Scene
    decreases |images|
  {
    if images == [] then Scene([], [])
    else AddImageAsWritten(AlbumAsWritten(images[..|images| - 1]), images[|images| - 1], |images|)
  }

  /**
   * moveItem as written: picture i goes to offset + i * width(), dropping its horizontal
   * margin, and page number i is looked up for every picture; None when that index is past
   * the end of m_slidePgNumItems.
   */
  function MoveItemAsWritten(s: Scene, offset: int): Option<Scene> {
    if |s.numbers| < |s.items| then None
    else
      var items := seq(|s.items|, i requires 0 <= i < |s.items| =>
        s.items[i].(pos := Point(offset + i * Width, s.items[i].pos.y)));
      Some(Scene(items, seq(|s.numbers|, i requires 0 <= i < |s.numbers| =>
        if i < |s.items| then s.numbers[i].(pos := NumberPos(items[i])) else s.numbers[i])))
  }

  /** An image that fails to load, after one that loads, leaves the second picture without a page number. */
  lemma UnloadableImageOverrunsPageNumbers()
    ensures |AlbumAsWritten([Pixmap(800, 600), Pixmap(0, 0)]).items| == 2
    ensures |AlbumAsWritten([Pixmap(800, 600), Pixmap(0, 0)]).numbers| == 1
    ensures MoveItemAsWritten(AlbumAsWritten([Pixmap(800, 600), Pixmap(0, 0)]), 0) == None
  {
    var images := [Pixmap(800, 600), Pixmap(0, 0)];
    assert images[..1] == [Pixmap(800, 600)];
    assert [Pixmap(800, 600)][..0] == [];
  }

  /**
   * Two 800-pixel-wide pictures, each centred 112 pixels into its screen. A right press slides
   * from 0 to -1024; the last frame of that slide puts the second picture at x = 0 as written,
   * where the centred layout puts it at x = 112.
   */
  lemma FrameDropsCentering()
    ensures var s := Album([Pixmap(800, 600), Pixmap(800, 600)]);
            && |s.items| == 2 && |s.numbers| == 2
            && s.items[0].pos == Point(112, 0) && s.items[1].pos == Point(SlideOffset + 112, 0)
            && AfterRight(0, SlideOffset, |s.items|) == -SlideOffset
            && MoveItemAsWritten(s, -SlideOffset).Some?
            && MoveItemAsWritten(s, -SlideOffset).value.items[1].pos == Point(0, 0)
            && Moved(s, -SlideOffset).items[1].pos == Point(112, 0)
  {
    var images := [Pixmap(800, 600), Pixmap(800, 600)];
    assert images[..1] == [Pixmap(800, 600)];
    assert [Pixmap(800, 600)][..0] == [];
  }

  class SlidingWindow {
    /** m_slideItems. */
    var slideItems: seq<PixmapItem>
    /** m_slidePgNumItems. */
    var pageNumbers: seq<PageNumber>
    /** m_nNewPosOfFirstItem. */
    var firstItemPos: int
    /** m_timelineItem: whether it runs, and its frame range. */
    var running: bool
    var startFrame: int
    var endFrame: int
    var leftEnabled: bool
    var rightEnabled: bool

    function Model(): Scene
      reads this
    {
      Scene(slideItems, pageNumbers)
    }

    predicate Valid()
      reads this
    {
      Paired(Model())
    }

    /** Each button is enabled exactly when a press on it would slide. */
    predicate ButtonsShow()
      reads this
    {
      && leftEnabled == CanSlideLeft(firstItemPos)
      && rightEnabled == CanSlideRight(firstItemPos, SlideOffset, |slideItems|)
    }

    /** The constructor on the directory's pixmaps, already scaled to the screen: addImages, then slideBy(0). */
    constructor(images: seq<Pixmap>)
      ensures Valid() && Model() == Album(images) && OnSlots(slideItems)
      ensures firstItemPos == 0 && running && startFrame == 0 && endFrame == 0
      ensures ButtonsShow()
    {
      slideItems := [];
      pageNumbers := [];
      firstItemPos := 0;
      running := false;
      startFrame := 0;
      endFrame := 0;
      leftEnabled := true;
      rightEnabled := true;
      new;
      AddImages(images);
      AlbumPaired(images);
      SlideBy(0);
    }

    /** The loop of addImages over the pixmaps, creating a picture and page number i + 1 for each. */
    method AddImages(images: seq<Pixmap>)
      requires slideItems == [] && pageNumbers == []
      modifies this
      ensures Model() == Album(images)
      ensures firstItemPos == old(firstItemPos) && running == old(running)
      ensures startFrame == old(startFrame) && endFrame == old(endFrame)
      ensures leftEnabled == old(leftEnabled) && rightEnabled == old(rightEnabled)
    {
      var i := 0;
      while i < |images|
        invariant 0 <= i <= |images|
        invariant Model() == Album(images[..i])
        invariant firstItemPos == old(firstItemPos) && running == old(running)
        invariant startFrame == old(startFrame) && endFrame == old(endFrame)
        invariant leftEnabled == old(leftEnabled) && rightEnabled == old(rightEnabled)
      {
        var placed := SetImageItemPos(Some(PixmapItem(images[i], Origin)));
        SetImageItemNoPos(placed, Some(i + 1), placed.value.pos, placed.value.pixmap);
        assert images[..i + 1][..i] == images[..i];
        i := i + 1;
      }
      assert images[..|images|] == images;
    }

    /**
     * Centres a picture in the next free slot and appends it to the list. A NULL item, and
     * (correcting the source) an item whose pixmap is null, is left alone; placed is the item
     * after the call.
     */
    method SetImageItemPos(item: Option<PixmapItem>) returns (placed: Option<PixmapItem>)
      modifies this
      ensures item.None? || item.value.pixmap.IsNull() ==> placed == item && slideItems == old(slideItems)
      ensures item.Some? && !item.value.pixmap.IsNull() ==>
        && placed == Some(item.value.(pos := SlotPos(|old(slideItems)|, item.value.pixmap)))
        && slideItems == old(slideItems) + [placed.value]
      ensures pageNumbers == old(pageNumbers) && firstItemPos == old(firstItemPos) && running == old(running)
      ensures startFrame == old(startFrame) && endFrame == old(endFrame)
      ensures leftEnabled == old(leftEnabled) && rightEnabled == old(rightEnabled)
    {
      if item.None? || item.value.pixmap.IsNull() {
        return item;
      }
      var pixmap := item.value.pixmap;
      var posX, posY := 0, 0;
      if pixmap.width < Width {
        var diffWidth := Width - pixmap.width;
        posX := diffWidth / 2;
      }
      if pixmap.height < Height {
        var diffHeight := Height - pixmap.height;
        posY := diffHeight / 2;
      }
      placed := Some(item.value.(pos := Point(|slideItems| * SlideOffset + posX, 0 + posY)));
      slideItems := slideItems + [placed.value];
    }

    /** Puts page number page at the bottom-right corner of a picture at pos; NULL items and null pixmaps are skipped. */
    method SetImageItemNoPos(item: Option<PixmapItem>, page: Option<nat>, pos: Point, pixmap: Pixmap)
      modifies this
      ensures item.None? || page.None? || pixmap.IsNull() ==> pageNumbers == old(pageNumbers)
      ensures item.Some? && page.Some? && !pixmap.IsNull() ==>
        pageNumbers == old(pageNumbers) + [PageNumber(page.value, NumberPos(PixmapItem(pixmap, pos)))]
      ensures slideItems == old(slideItems) && firstItemPos == old(firstItemPos) && running == old(running)
      ensures startFrame == old(startFrame) && endFrame == old(endFrame)
      ensures leftEnabled == old(leftEnabled) && rightEnabled == old(rightEnabled)
    {
      if item.None? || page.None? {
        return;
      }
      if pixmap.IsNull() {
        return;
      }
      var number := PageNumber(page.value, Point(pos.x + pixmap.width - PageNumOffsetX, pos.y + pixmap.height - PageNumOffsetY));
      pageNumbers := pageNumbers + [number];
    }

    /** The left button: slides a screen right unless the timeline runs or the first picture is at 0. */
    method SlideLeft()
      requires Valid()
      modifies this
      ensures Valid() && Model() == old(Model())
      ensures old(running) ==> firstItemPos == old(firstItemPos)
      ensures !old(running) ==> firstItemPos == AfterLeft(old(firstItemPos), SlideOffset)
      ensures !old(running) && CanSlideLeft(old(firstItemPos)) ==>
        running && startFrame == old(firstItemPos) && endFrame == firstItemPos && ButtonsShow()
      ensures old(running) || !CanSlideLeft(old(firstItemPos)) ==>
        && running == old(running) && startFrame == old(startFrame) && endFrame == old(endFrame)
        && leftEnabled == old(leftEnabled) && rightEnabled == old(rightEnabled)
    {
      if running {
        return;
      }
      if !(firstItemPos >= StartX) {
        SlideBy(SlideOffset);
      }
    }

    /** The right button: slides a screen left unless the timeline runs or the last picture's slot is at 0. */
    method SlideRight()
      requires Valid()
      modifies this
      ensures Valid() && Model() == old(Model())
      ensures old(running) ==> firstItemPos == old(firstItemPos)
      ensures !old(running) ==> firstItemPos == AfterRight(old(firstItemPos), SlideOffset, |slideItems|)
      ensures !old(running) && CanSlideRight(old(firstItemPos), SlideOffset, |slideItems|) ==>
        running && startFrame == old(firstItemPos) && endFrame == firstItemPos && ButtonsShow()
      ensures old(running) || !CanSlideRight(old(firstItemPos), SlideOffset, |slideItems|) ==>
        && running == old(running) && startFrame == old(startFrame) && endFrame == old(endFrame)
        && leftEnabled == old(leftEnabled) && rightEnabled == old(rightEnabled)
    {
      if running {
        return;
      }
      if !(firstItemPos <= -(SlideOffset * (|slideItems| - 1))) {
        SlideBy(-SlideOffset);
      }
    }

    /** Starts the timeline over frames old position .. old position + distance and records the new position. */
    method SlideBy(distance: int)
      modifies this
      ensures Model() == old(Model())
      ensures firstItemPos == old(firstItemPos) + distance
      ensures running && startFrame == old(firstItemPos) && endFrame == firstItemPos
      ensures ButtonsShow()
    {
      var itemStart := firstItemPos;
      var itemEnd := firstItemPos + distance;
      startFrame, endFrame := itemStart, itemEnd;
      running := true;
      firstItemPos := itemEnd;
      leftEnabled := !(firstItemPos >= StartX);
      rightEnabled := !(firstItemPos <= -(SlideOffset * (|slideItems| - 1)));
    }

    /** A timeline frame: every picture to its slot counted from offset, centred, and its page number after it. */
    method MoveItem(offset: int)
      requires Valid()
      modifies this
      ensures Valid() && Model() == Moved(old(Model()), offset)
      ensures firstItemPos == old(firstItemPos) && running == old(running)
      ensures startFrame == old(startFrame) && endFrame == old(endFrame)
      ensures leftEnabled == old(leftEnabled) && rightEnabled == old(rightEnabled)
    {
      ghost var s0 := Model();
      var i := 0;
      while i < |slideItems|
        invariant 0 <= i <= |slideItems| == |s0.items| && |pageNumbers| == |s0.numbers|
        invariant forall j :: 0 <= j < i ==> slideItems[j] == Moved(s0, offset).items[j]
        invariant forall j :: 0 <= j < i ==> pageNumbers[j] == Moved(s0, offset).numbers[j]
        invariant forall j :: i <= j < |slideItems| ==> slideItems[j] == s0.items[j] && pageNumbers[j] == s0.numbers[j]
        invariant firstItemPos == old(firstItemPos) && running == old(running)
        invariant startFrame == old(startFrame) && endFrame == old(endFrame)
        invariant leftEnabled == old(leftEnabled) && rightEnabled == old(rightEnabled)
      {
        var item := slideItems[i];
        item := item.(pos := Point(offset + i * Width + Margin(Width, item.pixmap.width), item.pos.y));
        slideItems := slideItems[i := item];
        pageNumbers := pageNumbers[i := pageNumbers[i].(pos := Point(
          item.pos.x + item.pixmap.width - PageNumOffsetX, item.pos.y + item.pixmap.height - PageNumOffsetY))];
        i := i + 1;
      }
      assert Model() == Moved(s0, offset);
      MovedKeepsPairing(s0, offset);
    }

    /** The timeline's finished signal: the timeline stops; moveItemFinish itself only logs. */
    method TimelineFinished()
      modifies this
      ensures !running && Model() == old(Model()) && firstItemPos == old(firstItemPos)
      ensures startFrame == old(startFrame) && endFrame == old(endFrame)
      ensures leftEnabled == old(leftEnabled) && rightEnabled == old(rightEnabled)
    {
      running := false;
    }
  }
}
