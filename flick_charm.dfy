/**
  The flick gesture engine (FlickCharm): one FlickData record per tracked viewport, an event
  filter that turns press/move/release events into drag scrolling or replays them as a click,
  and a shared ticker whose ticks sample drag speed and run the inertial deceleration.

  The engine's whole state is the value `Engine`; the pure functions `Activate`, `Deactivate`,
  `Filter` and `Tick` say what each entry point does to it, and the class `FlickCharm` holds
  the same state in fields and carries the imperative versions of the entry points.
*/
module Flick {
  import opened Geometry

  /** The default arguments `a` and `max` of deaccelerate. */
  const DecelerationStep := 1
  const MaxSpeed := 64

  datatype State = Steady | Pressed | ManualScroll | AutoScroll | Stop

  /** The three FLICK_* scroll modes accepted by activateOn. */
  datatype ScrollMode = FlickBoth | FlickVertical | FlickHorizontal

  /**
    A widget. `ScrollArea(n)` is a QAbstractScrollArea (the only kind a dynamic_cast to
    QAbstractScrollArea accepts) and `Viewport(n)` is the viewport widget of `ScrollArea(n)`.
  */
  datatype Widget = ScrollArea(id: nat) | Viewport(area: nat) | PlainWidget(id: nat)

  /** The object an event is delivered to: a widget, or a QObject that is not a widget. */
  datatype Object = WidgetObject(widget: Widget) | PlainObject(id: nat)

  datatype EventType = MouseButtonPress | MouseButtonRelease | MouseMove | OtherEvent

  /** Event identity (the QEvent pointer): events from the user, or events posted by the engine. */
  datatype EventId = UserEvent(n: nat) | PostedEvent(n: nat)

  /**
    An input event: `leftButtonOnly` is `buttons() == Qt::LeftButton` and `noModifier` is
    `modifiers() == Qt::NoModifier`.
  */
  datatype Event = Event(id: EventId, kind: EventType, pos: Point, leftButtonOnly: bool, noModifier: bool)

  /** One QApplication::postEvent call. */
  datatype Posting = Posting(receiver: Object, event: Event)

  /** The per-viewport record; `scrollType` also selects the scroll setter (toScrollItem). */
  datatype FlickData = FlickData(
    state: State,
    widget: Widget,
    pressPos: Point,
    offset: Point,
    dragPos: Point,
    speed: Point,
    ignored: seq<EventId>,
    scrollType: ScrollMode)

  /**
    Everything the engine reads and writes: the records keyed by viewport, the scroll bar
    values of the host's scroll areas (keyed by area id; a missing entry reads as 0), the
    widgets the engine is installed on as an event filter, whether the shared ticker runs, the
    events posted so far, and the next identity for a posted event.
  */
  datatype Engine = Engine(
    flickData: map<Widget, FlickData>,
    scrollBars: map<nat, Point>,
    watched: set<Widget>,
    tickerActive: bool,
    posted: seq<Posting>,
    nextPosted: nat)

  /** An identity the engine has already handed out to a posted event. */
  predicate Issued(id: EventId, next: nat)
  {
    id.PostedEvent? && id.n < next
  }

  /**
    The engine invariant: every record belongs to the viewport of its own scroll area, and
    every identity in an ignored list or in the posted queue was issued by the engine.
  */
  predicate Wf(e: Engine)
  {
    && OwnViewports(e.flickData)
    && (forall v, id :: v in e.flickData && id in e.flickData[v].ignored ==> Issued(id, e.nextPosted))
    && (forall i :: 0 <= i < |e.posted| ==> Issued(e.posted[i].event.id, e.nextPosted))
  }

  /** Every record is keyed by the viewport of the scroll area it records. */
  predicate OwnViewports(fd: map<Widget, FlickData>)
  {
    forall v :: v in fd ==> v.Viewport? && fd[v].widget == ScrollArea(v.area)
  }

  // ---------------------------------------------------------------------------------------
  // Scroll offsets and the three scroll setters

  /** The value of area n's scroll bars. */
  function Bar(bars: map<nat, Point>, n: nat): Point
  {
    if n in bars then bars[n] else Origin
  }

  /** scrollOffset: the scroll bar values of a scroll area, (0, 0) for any other widget. */
  function ScrollOffset(bars: map<nat, Point>, w: Widget): Point
  {
    if w.ScrollArea? then Bar(bars, w.id) else Origin
  }

  /** setScrollOffset, setScrollOffsetVert and setScrollOffsetHorz on the current bar values. */
  function SetScrollOffset(current: Point, p: Point): Point { p }
  function SetScrollOffsetVert(current: Point, p: Point): Point { Point(current.x, p.y) }
  function SetScrollOffsetHorz(current: Point, p: Point): Point { Point(p.x, current.y) }

  /** The setter activateOn hooks for a scroll mode: each mode writes exactly its own axes. */
  function ToScrollItem(mode: ScrollMode, current: Point, p: Point): (r: Point)
    ensures r.x == (if mode == FlickVertical then current.x else p.x)
    ensures r.y == (if mode == FlickHorizontal then current.y else p.y)
  {
    match mode
    case FlickBoth => SetScrollOffset(current, p)
    case FlickVertical => SetScrollOffsetVert(current, p)
    case FlickHorizontal => SetScrollOffsetHorz(current, p)
  }

  /** Calling the hooked setter on widget w: only a scroll area's bars change. */
  function ScrollTo(bars: map<nat, Point>, w: Widget, mode: ScrollMode, p: Point): (r: map<nat, Point>)
    ensures forall n :: (!w.ScrollArea? || n != w.id) ==> Bar(r, n) == Bar(bars, n)
    ensures w.ScrollArea? ==> Bar(r, w.id) == ToScrollItem(mode, ScrollOffset(bars, w), p)
  {
    if w.ScrollArea? then bars[w.id := ToScrollItem(mode, ScrollOffset(bars, w), p)] else bars
  }

  // ---------------------------------------------------------------------------------------
  // deaccelerate

  /** One component of deaccelerate: clamp to [-max, max], then step `a` toward zero. */
  function DeaccelerateAxis(v: int, a: int, max: int): (r: int)
    ensures 0 <= a && 0 <= max ==> Abs(r) == Max(Min(Abs(v), max) - a, 0)
    ensures 0 <= max ==> (r > 0 ==> v > 0) && (r < 0 ==> v < 0)
  {
    var c := Bound(-max, v, max);
    if c == 0 then c else if c > 0 then Max(0, c - a) else Min(0, c + a)
  }

  function Deaccelerate(speed: Point, a: int := DecelerationStep, max: int := MaxSpeed): Point
  {
    Point(DeaccelerateAxis(speed.x, a, max), DeaccelerateAxis(speed.y, a, max))
  }

  // ---------------------------------------------------------------------------------------
  // The ignored list

  /** QList::removeAll: every occurrence of e is dropped, the rest keeps its order. */
  function RemoveAll(s: seq<EventId>, e: EventId): (r: seq<EventId>)
    ensures e !in r
    ensures forall x :: x in r ==> x in s
    ensures forall x :: x in s && x != e ==> x in r
    ensures |r| == |s| - multiset(s)[e]
  {
    if s == [] then []
    else
      assert s == [s[0]] + s[1..];
      if s[0] == e then RemoveAll(s[1..], e) else [s[0]] + RemoveAll(s[1..], e)
  }

  // ---------------------------------------------------------------------------------------
  // activateOn and deactivateFrom

  /** The record activateOn creates: state Steady, points (0, 0), nothing ignored. */
  function NewRecord(area: Widget, mode: ScrollMode): FlickData
  {
    FlickData(Steady, area, Origin, Origin, Origin, Origin, [], mode)
  }

  function Activate(e: Engine, widget: Widget, mode: ScrollMode): Engine
  {
    if widget.ScrollArea? then
      var viewport := Viewport(widget.id);
      e.(watched := e.watched + {viewport, widget},
         flickData := e.flickData[viewport := NewRecord(widget, mode)])
    else
      e
  }

  function Deactivate(e: Engine, widget: Widget): Engine
  {
    if widget.ScrollArea? then
      var viewport := Viewport(widget.id);
      e.(watched := e.watched - {viewport, widget}, flickData := e.flickData - {viewport})
    else
      e
  }

  // ---------------------------------------------------------------------------------------
  // eventFilter

  datatype Reaction = Reaction(engine: Engine, consumed: bool)

  predicate IsMouseType(t: EventType)
  {
    t == MouseButtonPress || t == MouseButtonRelease || t == MouseMove
  }

  /** Writing back a record that keeps its widget and ignores only issued events keeps Wf. */
  function Store(e: Engine, viewport: Widget, d: FlickData): (r: Engine)
    ensures (&& Wf(e) && viewport in e.flickData && d.widget == e.flickData[viewport].widget
             && (forall id :: id in d.ignored ==> Issued(id, e.nextPosted))) ==> Wf(r)
  {
    e.(flickData := e.flickData[viewport := d])
  }

  /** Posting two events under the next two identities keeps Wf. */
  lemma PostingTwoKeepsWf(e: Engine, p1: Posting, p2: Posting)
    requires p1.event.id == PostedEvent(e.nextPosted) && p2.event.id == PostedEvent(e.nextPosted + 1)
    ensures Wf(e) ==> Wf(e.(posted := e.posted + [p1, p2], nextPosted := e.nextPosted + 2))
  {
    var e' := e.(posted := e.posted + [p1, p2], nextPosted := e.nextPosted + 2);
    if Wf(e) {
      forall v, id | v in e'.flickData && id in e'.flickData[v].ignored ensures Issued(id, e'.nextPosted) {
        assert Issued(id, e.nextPosted);
      }
      forall i | 0 <= i < |e'.posted| ensures Issued(e'.posted[i].event.id, e'.nextPosted) {
        if i < |e.posted| {
          assert e'.posted[i] == e.posted[i];
        }
      }
    }
  }

  /** The identities of the press and the release a tap replays. */
  function ReplayedPressId(e: Engine): EventId { PostedEvent(e.nextPosted) }
  function ReplayedReleaseId(e: Engine): EventId { PostedEvent(e.nextPosted + 1) }

  /** The replayed press: a left-button press without modifiers at the recorded press position. */
  function ReplayedPress(e: Engine, data: FlickData): Event
  {
    Event(ReplayedPressId(e), MouseButtonPress, data.pressPos, true, true)
  }

  /** The replayed release: a copy of the release that ended the tap. */
  function ReplayedRelease(e: Engine, release: Event): Event
  {
    release.(id := ReplayedReleaseId(e))
  }

  /** eventFilter's switch on the record's state. */
  function React(e: Engine, obj: Object, viewport: Widget, data: FlickData, ev: Event, cursor: Point): (r: Reaction)
    requires viewport in e.flickData && data == e.flickData[viewport]
    ensures Wf(e) ==> Wf(r.engine)
  {
    match data.state
    case Steady =>
      if ev.kind == MouseButtonPress && ev.leftButtonOnly then
        Reaction(Store(e, viewport, data.(state := Pressed, pressPos := ev.pos,
                                          offset := ScrollOffset(e.scrollBars, data.widget))), false)
      else
        Reaction(e, false)
    case Pressed =>
      if ev.kind == MouseButtonRelease then
        var press := ReplayedPress(e, data);
        var release := ReplayedRelease(e, ev);
        var e' := e.(posted := e.posted + [Posting(obj, press), Posting(obj, release)],
                     nextPosted := e.nextPosted + 2);
        PostingTwoKeepsWf(e, Posting(obj, press), Posting(obj, release));
        Reaction(Store(e', viewport, data.(state := Steady, ignored := data.ignored + [press.id, release.id])), false)
      else if ev.kind == MouseMove then
        Reaction(Store(e, viewport, data.(state := ManualScroll, dragPos := cursor)).(tickerActive := true), false)
      else
        Reaction(e, false)
    case ManualScroll =>
      if ev.kind == MouseMove then
        var delta := ev.pos.Minus(data.pressPos);
        Reaction(e.(scrollBars := ScrollTo(e.scrollBars, data.widget, data.scrollType, data.offset.Minus(delta))), false)
      else if ev.kind == MouseButtonRelease then
        Reaction(Store(e, viewport, data.(state := AutoScroll)), false)
      else
        Reaction(e, false)
    case AutoScroll =>
      if ev.kind == MouseButtonPress then
        Reaction(Store(e, viewport, data.(state := Stop, speed := Origin, pressPos := ev.pos,
                                          offset := ScrollOffset(e.scrollBars, data.widget))), false)
      else if ev.kind == MouseButtonRelease then
        Reaction(Store(e, viewport, data.(state := Steady, speed := Origin)), false)
      else
        Reaction(e, false)
    case Stop =>
      if ev.kind == MouseButtonRelease then
        Reaction(Store(e, viewport, data.(state := Steady)), false)
      else if ev.kind == MouseMove then
        Reaction(Store(e, viewport, data.(state := ManualScroll, dragPos := cursor)).(tickerActive := true), true)
      else
        Reaction(e, false)
  }

  /** eventFilter(obj, ev), with `cursor` standing for QCursor::pos(). */
  function Filter(e: Engine, obj: Object, ev: Event, cursor: Point): (r: Reaction)
    ensures Wf(e) ==> Wf(r.engine)
  {
    if !obj.WidgetObject? || !IsMouseType(ev.kind) || !ev.noModifier || obj.widget !in e.flickData then
      Reaction(e, false)
    else
      var viewport := obj.widget;
      var data := e.flickData[viewport];
      if ev.id in data.ignored then
        Reaction(Store(e, viewport, data.(ignored := RemoveAll(data.ignored, ev.id))), false)
      else
        React(e, obj, viewport, data, ev, cursor)
  }

  // ---------------------------------------------------------------------------------------
  // timerEvent

  /** The states that keep the ticker alive. */
  predicate Active(s: State)
  {
    s == ManualScroll || s == AutoScroll
  }

  /** What one tick does to one record. */
  function TickData(d: FlickData, cursor: Point): FlickData
  {
    if d.state == ManualScroll then
      d.(speed := cursor.Minus(d.dragPos), dragPos := cursor)
    else if d.state == AutoScroll then
      var s := Deaccelerate(d.speed);
      d.(speed := s, state := if s == Origin then Steady else AutoScroll)
    else
      d
  }

  /** The areas whose viewport record is in AutoScroll. */
  function AutoScrollAreas(fd: map<Widget, FlickData>): set<nat>
  {
    set v | v in fd && v.Viewport? && fd[v].state == AutoScroll :: v.area
  }

  /** Whether the record of area n's viewport is in AutoScroll. */
  predicate AutoScrolling(fd: map<Widget, FlickData>, n: nat)
  {
    Viewport(n) in fd && fd[Viewport(n)].state == AutoScroll
  }

  /** Area n's bars after a tick: moved back by the decelerated speed through the record's setter. */
  function TickedBar(e: Engine, n: nat): Point
  {
    var v := Viewport(n);
    if v in e.flickData && e.flickData[v].state == AutoScroll then
      AutoScrollStep(e.flickData[v], Bar(e.scrollBars, n))
    else
      Bar(e.scrollBars, n)
  }

  /** Bars at p moved back by the decelerated speed of record d, through d's setter. */
  function AutoScrollStep(d: FlickData, p: Point): Point
  {
    ToScrollItem(d.scrollType, p, p.Minus(Deaccelerate(d.speed)))
  }

  predicate AnyActive(fd: map<Widget, FlickData>)
  {
    exists v :: v in fd && Active(fd[v].state)
  }

  /** timerEvent: every record ticks; the ticker stops when no record was active. */
  function Tick(e: Engine, cursor: Point): Engine
  {
    e.(flickData := map v | v in e.flickData :: TickData(e.flickData[v], cursor),
       scrollBars := map n | n in e.scrollBars.Keys + AutoScrollAreas(e.flickData) :: TickedBar(e, n),
       tickerActive := e.tickerActive && AnyActive(e.flickData))
  }

  /** `records` is fd after every record not `pending` has ticked. */
  ghost predicate RecordsTicked(fd: map<Widget, FlickData>, pending: set<Widget>, cursor: Point, records: map<Widget, FlickData>)
  {
    && records.Keys == fd.Keys
    && forall w :: w in records ==> records[w] == if w in pending then fd[w] else TickData(fd[w], cursor)
  }

  /** `bars` is e's scroll bars after every record not `pending` has ticked. */
  ghost predicate BarsTicked(e: Engine, pending: set<Widget>, bars: map<nat, Point>)
  {
    && (forall n :: n in bars <==> n in e.scrollBars || (Viewport(n) !in pending && AutoScrolling(e.flickData, n)))
    && forall n :: n in bars ==> bars[n] == if Viewport(n) in pending then Bar(e.scrollBars, n) else TickedBar(e, n)
  }

  /** Whether a record that is no longer `pending` was active when it ticked. */
  ghost predicate ActiveTicked(fd: map<Widget, FlickData>, pending: set<Widget>)
  {
    exists w :: w in fd && w !in pending && Active(fd[w].state)
  }

  /** One more record ticking: its record is replaced by the ticked one. */
  lemma RecordsTickedStep(fd: map<Widget, FlickData>, pending: set<Widget>, cursor: Point, records: map<Widget, FlickData>, v: Widget)
    requires RecordsTicked(fd, pending, cursor, records) && v in fd && v in pending
    ensures v in records && records[v] == fd[v]
    ensures RecordsTicked(fd, pending - {v}, cursor, records[v := TickData(records[v], cursor)])
  {
    var r := records[v := TickData(records[v], cursor)];
    assert r.Keys == fd.Keys;
    forall w | w in r ensures r[w] == if w in pending - {v} then fd[w] else TickData(fd[w], cursor) {
      if w != v {
        assert r[w] == records[w];
      }
    }
  }

  /** One more viewport record ticking: only an auto-scrolling one moves its own area's bars. */
  lemma BarsTickedStep(e: Engine, pending: set<Widget>, bars: map<nat, Point>, n: nat)
    requires BarsTicked(e, pending, bars) && Viewport(n) in e.flickData && Viewport(n) in pending
    ensures var d := e.flickData[Viewport(n)];
            BarsTicked(e, pending - {Viewport(n)},
                       if d.state == AutoScroll then bars[n := AutoScrollStep(d, Bar(bars, n))] else bars)
  {
    assert Bar(bars, n) == Bar(e.scrollBars, n);
  }

  /** Once every record has ticked, the partial tick is the whole tick. */
  lemma TickedAll(e: Engine, cursor: Point, records: map<Widget, FlickData>, bars: map<nat, Point>)
    requires RecordsTicked(e.flickData, {}, cursor, records)
    requires BarsTicked(e, {}, bars)
    ensures records == Tick(e, cursor).flickData
    ensures bars == Tick(e, cursor).scrollBars
    ensures ActiveTicked(e.flickData, {}) == AnyActive(e.flickData)
  {
    var t := Tick(e, cursor);
    assert records.Keys == t.flickData.Keys;
    forall n ensures n in AutoScrollAreas(e.flickData) <==> AutoScrolling(e.flickData, n) {
      if AutoScrolling(e.flickData, n) {
        assert Viewport(n).area == n;
      }
    }
    assert bars.Keys == t.scrollBars.Keys;
  }

  lemma TickKeepsWf(e: Engine, cursor: Point)
    requires Wf(e)
    ensures Wf(Tick(e, cursor))
  {
    var t := Tick(e, cursor);
    forall v | v in t.flickData ensures v.Viewport? && t.flickData[v].widget == ScrollArea(v.area) {
      assert t.flickData[v] == TickData(e.flickData[v], cursor);
    }
    forall v, id | v in t.flickData && id in t.flickData[v].ignored ensures Issued(id, t.nextPosted) {
      assert t.flickData[v].ignored == e.flickData[v].ignored;
    }
  }

  /** The body of timerEvent's loop for the record of viewport v; says whether it was active. */
  method TickRecord(records: map<Widget, FlickData>, bars: map<nat, Point>, v: Widget, cursor: Point)
    returns (records': map<Widget, FlickData>, bars': map<nat, Point>, active: bool)
    requires v in records && v.Viewport? && records[v].widget == ScrollArea(v.area)
    ensures active == Active(records[v].state)
    ensures records' == records[v := TickData(records[v], cursor)]
    ensures bars' == if records[v].state == AutoScroll
                     then bars[v.area := AutoScrollStep(records[v], Bar(bars, v.area))]
                     else bars
  {
    var data := records[v];
    active := false;
    bars' := bars;
    if data.state == ManualScroll {
      active := true;
      data := data.(speed := cursor.Minus(data.dragPos));
      data := data.(dragPos := cursor);
    }
    if data.state == AutoScroll {
      active := true;
      data := data.(speed := Deaccelerate(data.speed));
      var p := ScrollOffset(bars', data.widget);
      bars' := ScrollTo(bars', data.widget, data.scrollType, p.Minus(data.speed));
      if data.speed == Origin {
        data := data.(state := Steady);
      }
    }
    records' := records[v := data];
  }

  /** One iteration of timerEvent's loop, on the partial tick that still has `pending` to do. */
  method TickNext(e: Engine, ghost pending: set<Widget>, cursor: Point, records: map<Widget, FlickData>, bars: map<nat, Point>, v: Widget)
    returns (records': map<Widget, FlickData>, bars': map<nat, Point>, active: bool)
    requires OwnViewports(e.flickData) && v in e.flickData && v in pending
    requires RecordsTicked(e.flickData, pending, cursor, records) && BarsTicked(e, pending, bars)
    ensures RecordsTicked(e.flickData, pending - {v}, cursor, records') && BarsTicked(e, pending - {v}, bars')
    ensures active == Active(e.flickData[v].state)
    ensures ActiveTicked(e.flickData, pending - {v}) <==> ActiveTicked(e.flickData, pending) || active
  {
    assert v.Viewport? && e.flickData[v].widget == ScrollArea(v.area) && Viewport(v.area) == v;
    RecordsTickedStep(e.flickData, pending, cursor, records, v);
    BarsTickedStep(e, pending, bars, v.area);
    records', bars', active := TickRecord(records, bars, v, cursor);
  }

  /** The loop of timerEvent: every record ticks; `count` is the number of active records. */
  method TickEach(e: Engine, cursor: Point) returns (records: map<Widget, FlickData>, bars: map<nat, Point>, count: nat)
    requires OwnViewports(e.flickData)
    ensures records == Tick(e, cursor).flickData && bars == Tick(e, cursor).scrollBars
    ensures count > 0 <==> AnyActive(e.flickData)
  {
    records, bars, count := e.flickData, e.scrollBars, 0;
    var todo := e.flickData.Keys;
    while todo != {}
      invariant todo <= e.flickData.Keys
      invariant RecordsTicked(e.flickData, todo, cursor, records)
      invariant BarsTicked(e, todo, bars)
      invariant count > 0 <==> ActiveTicked(e.flickData, todo)
      decreases todo
    {
      var v :| v in todo;
      var active;
      records, bars, active := TickNext(e, todo, cursor, records, bars, v);
      if active {
        count := count + 1;
      }
      todo := todo - {v};
    }
    TickedAll(e, cursor, records, bars);
  }

  // ---------------------------------------------------------------------------------------
  // The FlickCharm object

  class FlickCharm {
    var flickData: map<Widget, FlickData>
    var scrollBars: map<nat, Point>
    var watched: set<Widget>
    var tickerActive: bool
    var posted: seq<Posting>
    var nextPosted: nat

    function Model(): Engine
      reads this
    {
      Engine(flickData, scrollBars, watched, tickerActive, posted, nextPosted)
    }

    ghost predicate Valid()
      reads this
    {
      Wf(Model())
    }

    /** A fresh engine over a host whose scroll areas have the bar values `bars`. */
    constructor (bars: map<nat, Point>)
      ensures Valid()
      ensures Model() == Engine(map[], bars, {}, false, [], 0)
    {
      flickData := map[];
      scrollBars := bars;
      watched := {};
      tickerActive := false;
      posted := [];
      nextPosted := 0;
    }

    method ActivateOn(widget: Widget, scrollMode: ScrollMode)
      requires Valid()
      modifies this
      ensures Valid()
      ensures Model() == Activate(old(Model()), widget, scrollMode)
    {
      if widget.ScrollArea? {
        var viewport := Viewport(widget.id);
        watched := watched + {viewport};
        watched := watched + {widget};
        flickData := flickData - {viewport};
        flickData := flickData[viewport := FlickData(Steady, widget, Origin, Origin, Origin, Origin, [], scrollMode)];
        return;
      }
      // Not a scroll area: the source only prints a warning.
    }

    method DeactivateFrom(widget: Widget)
      requires Valid()
      modifies this
      ensures Valid()
      ensures Model() == Deactivate(old(Model()), widget)
    {
      if widget.ScrollArea? {
        var viewport := Viewport(widget.id);
        watched := watched - {viewport};
        watched := watched - {widget};
        flickData := flickData - {viewport};
      }
    }

    method EventFilter(obj: Object, ev: Event, cursor: Point) returns (consumed: bool)
      requires Valid()
      modifies this
      ensures Valid()
      ensures Reaction(Model(), consumed) == Filter(old(Model()), obj, ev, cursor)
    {
      ghost var e0 := Model();
      if !obj.WidgetObject? {
        return false;
      }
      var kind := ev.kind;
      if kind != MouseButtonPress && kind != MouseButtonRelease && kind != MouseMove {
        return false;
      }
      if !ev.noModifier {
        return false;
      }
      var viewport := obj.widget;
      if viewport !in flickData {
        return false;
      }
      var data := flickData[viewport];
      if ev.id in data.ignored {
        flickData := flickData[viewport := data.(ignored := RemoveAll(data.ignored, ev.id))];
        return false;
      }
      consumed := Dispatch(obj, viewport, ev, cursor);
    }

    /** eventFilter's switch on the state of the record of `viewport`. */
    method Dispatch(obj: Object, viewport: Widget, ev: Event, cursor: Point) returns (consumed: bool)
      requires viewport in flickData
      modifies this
      ensures Reaction(Model(), consumed)
           == React(old(Model()), obj, viewport, old(flickData[viewport]), ev, cursor)
    {
      ghost var e0 := Model();
      var kind := ev.kind;
      var data := flickData[viewport];
      consumed := false;
      match data.state {
        case Steady =>
          if kind == MouseButtonPress && ev.leftButtonOnly {
            data := data.(state := Pressed, pressPos := ev.pos);
            data := data.(offset := ScrollOffset(scrollBars, data.widget));
          }
        case Pressed =>
          if kind == MouseButtonRelease {
            data := data.(state := Steady);
            var event1 := Event(PostedEvent(nextPosted), MouseButtonPress, data.pressPos, true, true);
            var event2 := ev.(id := PostedEvent(nextPosted + 1));
            nextPosted := nextPosted + 2;
            data := data.(ignored := data.ignored + [event1.id]);
            data := data.(ignored := data.ignored + [event2.id]);
            posted := posted + [Posting(obj, event1)];
            posted := posted + [Posting(obj, event2)];
            assert data.ignored == old(flickData)[viewport].ignored + [event1.id, event2.id];
            assert posted == old(posted) + [Posting(obj, event1), Posting(obj, event2)];
          }
          if kind == MouseMove {
            data := data.(state := ManualScroll, dragPos := cursor);
            if !tickerActive {
              tickerActive := true;
            }
          }
        case ManualScroll =>
          if kind == MouseMove {
            var delta := ev.pos.Minus(data.pressPos);
            scrollBars := ScrollTo(scrollBars, data.widget, data.scrollType, data.offset.Minus(delta));
          }
          if kind == MouseButtonRelease {
            data := data.(state := AutoScroll);
          }
        case AutoScroll =>
          if kind == MouseButtonPress {
            data := data.(state := Stop, speed := Origin, pressPos := ev.pos);
            data := data.(offset := ScrollOffset(scrollBars, data.widget));
          }
          if kind == MouseButtonRelease {
            data := data.(state := Steady, speed := Origin);
          }
        case Stop =>
          if kind == MouseButtonRelease {
            data := data.(state := Steady);
          }
          if kind == MouseMove {
            consumed := true;
            data := data.(state := ManualScroll, dragPos := cursor);
            if !tickerActive {
              tickerActive := true;
            }
          }
      }
      flickData := flickData[viewport := data];
    }

    method TimerEvent(cursor: Point)
      requires Valid()
      modifies this
      ensures Valid()
      ensures Model() == Tick(old(Model()), cursor)
    {
      ghost var e0 := Model();
      var records, bars, count := TickEach(Model(), cursor);
      flickData := records;
      scrollBars := bars;
      if count == 0 {
        tickerActive := false;
      }
      TickKeepsWf(e0, cursor);
    }
  }
}
