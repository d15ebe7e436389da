/**
  What the flick engine promises, stated over the pure model in module Flick: the deceleration
  law and how fast auto-scrolling settles, what a tick does and when the ticker stops, how
  activateOn and deactivateFrom change the records, and how eventFilter reacts to each event.
*/
module FlickProperties {
  import opened Geometry
  import opened Flick

  // ---------------------------------------------------------------------------------------
  // Deceleration and settling

  /** The larger clamped speed component: the number of ticks auto-scrolling still needs. */
  function Clamped(s: Point): nat
  {
    Max(Min(Abs(s.x), MaxSpeed), Min(Abs(s.y), MaxSpeed))
  }

  /** The number of ticks after which an auto-scrolling record with speed s is Steady. */
  function SettleTicks(s: Point): (k: nat)
    ensures 1 <= k <= MaxSpeed
  {
    Max(Clamped(s), 1)
  }

  /** deaccelerate with its default arguments lowers the clamped speed by exactly one step. */
  lemma DeaccelerateLowersClamped(s: Point)
    ensures Clamped(Deaccelerate(s)) == Max(Clamped(s) - DecelerationStep, 0)
    ensures Deaccelerate(s) == Origin <==> Clamped(Deaccelerate(s)) == 0
  {
    var d := Deaccelerate(s);
    assert Abs(d.x) == Max(Min(Abs(s.x), MaxSpeed) - 1, 0);
    assert Abs(d.y) == Max(Min(Abs(s.y), MaxSpeed) - 1, 0);
  }

  /** deaccelerate never flips the sign of a component, and a zero component stays zero. */
  lemma DeacceleratePreservesSign(s: Point)
    ensures var d := Deaccelerate(s);
            && (d.x > 0 ==> s.x > 0) && (d.x < 0 ==> s.x < 0) && (s.x == 0 ==> d.x == 0)
            && (d.y > 0 ==> s.y > 0) && (d.y < 0 ==> s.y < 0) && (s.y == 0 ==> d.y == 0)
  {
  }

  /** k ticks of one record, with the cursor standing still at `cursor`. */
  function Ticks(d: FlickData, k: nat, cursor: Point): FlickData
    decreases k
  {
    if k == 0 then d else Ticks(TickData(d, cursor), k - 1, cursor)
  }

  /**
    An auto-scrolling record keeps auto-scrolling for SettleTicks(speed) - 1 ticks and is
    Steady, with speed (0, 0), from tick SettleTicks(speed) on: at most 64 ticks from any speed.
  */
  lemma {:induction false} AutoScrollSettles(d: FlickData, k: nat, cursor: Point)
    requires d.state == AutoScroll && 1 <= k
    ensures Ticks(d, k, cursor).state == (if k < SettleTicks(d.speed) then AutoScroll else Steady)
    ensures Clamped(Ticks(d, k, cursor).speed) == Max(Clamped(d.speed) - k, 0)
    ensures k >= SettleTicks(d.speed) ==> Ticks(d, k, cursor).speed == Origin
    decreases k
  {
    var d1 := TickData(d, cursor);
    DeaccelerateLowersClamped(d.speed);
    assert d1.speed == Deaccelerate(d.speed);
    if k == 1 {
      assert Ticks(d, 1, cursor) == Ticks(d1, 0, cursor) == d1;
    } else if d1.state == Steady {
      assert d1.speed == Origin;
      SteadyStaysSteady(d1, k - 1, cursor);
    } else {
      AutoScrollSettles(d1, k - 1, cursor);
    }
  }

  /** Ticks leave a Steady record alone. */
  lemma {:induction false} SteadyStaysSteady(d: FlickData, k: nat, cursor: Point)
    requires d.state == Steady
    ensures Ticks(d, k, cursor) == d
    decreases k
  {
    if k > 0 {
      SteadyStaysSteady(TickData(d, cursor), k - 1, cursor);
    }
  }

  // ---------------------------------------------------------------------------------------
  // timerEvent

  /** A tick updates every record on its own and moves only auto-scrolling areas' bars. */
  lemma TickIsPerRecord(e: Engine, cursor: Point)
    ensures var t := Tick(e, cursor);
            && t.flickData.Keys == e.flickData.Keys
            && (forall v :: v in e.flickData ==> t.flickData[v] == TickData(e.flickData[v], cursor))
            && (forall n :: Bar(t.scrollBars, n) == TickedBar(e, n))
            && t.watched == e.watched && t.posted == e.posted && t.nextPosted == e.nextPosted
  {
    var t := Tick(e, cursor);
    forall n ensures Bar(t.scrollBars, n) == TickedBar(e, n) {
      if Viewport(n) in e.flickData && e.flickData[Viewport(n)].state == AutoScroll {
        assert Viewport(n).area == n;
        assert n in AutoScrollAreas(e.flickData);
      }
    }
  }

  /** A tick in which no record scrolls changes nothing but stops the ticker. */
  lemma IdleTickStopsTicker(e: Engine, cursor: Point)
    requires !AnyActive(e.flickData)
    ensures Tick(e, cursor) == e.(tickerActive := false)
  {
    var t := Tick(e, cursor);
    assert t.flickData == e.flickData by {
      forall v | v in e.flickData ensures t.flickData[v] == e.flickData[v] {
        assert !Active(e.flickData[v].state);
      }
    }
    assert AutoScrollAreas(e.flickData) == {} by {
      forall v | v in e.flickData ensures e.flickData[v].state != AutoScroll {
        assert !Active(e.flickData[v].state);
      }
    }
    assert t.scrollBars == e.scrollBars by {
      forall n | n in e.scrollBars ensures t.scrollBars[n] == e.scrollBars[n] {
        if Viewport(n) in e.flickData {
          assert !Active(e.flickData[Viewport(n)].state);
        }
      }
    }
  }

  /** While some record scrolls, a running ticker keeps running. */
  lemma ActiveTickKeepsTicker(e: Engine, v: Widget, cursor: Point)
    requires e.tickerActive && v in e.flickData && Active(e.flickData[v].state)
    ensures Tick(e, cursor).tickerActive
  {
  }

  // ---------------------------------------------------------------------------------------
  // activateOn and deactivateFrom

  /**
    activateOn on a scroll area leaves exactly one fresh Steady record, with the given mode,
    for its viewport and keeps every other record; on any other widget it changes nothing.
  */
  lemma ActivateReplacesRecord(e: Engine, w: Widget, mode: ScrollMode)
    ensures var a := Activate(e, w, mode);
            if w.ScrollArea? then
              && a.flickData.Keys == e.flickData.Keys + {Viewport(w.id)}
              && a.flickData[Viewport(w.id)] == NewRecord(w, mode)
              && a.flickData[Viewport(w.id)].state == Steady
              && a.flickData[Viewport(w.id)].scrollType == mode
              && a.flickData[Viewport(w.id)].ignored == []
              && (forall v :: v in e.flickData && v != Viewport(w.id) ==> a.flickData[v] == e.flickData[v])
              && a.watched == e.watched + {w, Viewport(w.id)}
              && a.scrollBars == e.scrollBars && a.tickerActive == e.tickerActive
              && a.posted == e.posted && a.nextPosted == e.nextPosted
            else
              a == e
  {
  }

  /** deactivateFrom on a scroll area drops exactly its viewport's record and both watches. */
  lemma DeactivateRemovesRecord(e: Engine, w: Widget)
    ensures var a := Deactivate(e, w);
            if w.ScrollArea? then
              && a.flickData.Keys == e.flickData.Keys - {Viewport(w.id)}
              && (forall v :: v in a.flickData ==> a.flickData[v] == e.flickData[v])
              && a.watched == e.watched - {w, Viewport(w.id)}
              && a.scrollBars == e.scrollBars && a.tickerActive == e.tickerActive
              && a.posted == e.posted && a.nextPosted == e.nextPosted
            else
              a == e
  {
  }

  /** activateOn and deactivateFrom keep the engine invariant. */
  lemma ActivationKeepsWf(e: Engine, w: Widget, mode: ScrollMode)
    requires Wf(e)
    ensures Wf(Activate(e, w, mode)) && Wf(Deactivate(e, w))
  {
    var a := Activate(e, w, mode);
    forall v, id | v in a.flickData && id in a.flickData[v].ignored ensures Issued(id, a.nextPosted) {
      assert v in e.flickData && a.flickData[v] == e.flickData[v];
    }
    var b := Deactivate(e, w);
    forall v, id | v in b.flickData && id in b.flickData[v].ignored ensures Issued(id, b.nextPosted) {
      assert v in e.flickData && b.flickData[v] == e.flickData[v];
    }
  }

  // ---------------------------------------------------------------------------------------
  // eventFilter: events that do not reach the state machine

  /** An event that is not an unmodified press, release or move on a tracked viewport passes untouched. */
  lemma FilterPassesUntracked(e: Engine, obj: Object, ev: Event, cursor: Point)
    requires !obj.WidgetObject? || !IsMouseType(ev.kind) || !ev.noModifier || obj.widget !in e.flickData
    ensures Filter(e, obj, ev, cursor) == Reaction(e, false)
  {
  }

  /** An event the engine posted itself passes untouched, except that it is no longer ignored. */
  lemma FilterDropsIgnored(e: Engine, v: Widget, ev: Event, cursor: Point)
    requires IsMouseType(ev.kind) && ev.noModifier && v in e.flickData && ev.id in e.flickData[v].ignored
    ensures var r := Filter(e, WidgetObject(v), ev, cursor);
            && !r.consumed
            && r.engine.flickData.Keys == e.flickData.Keys
            && r.engine.flickData[v] == e.flickData[v].(ignored := r.engine.flickData[v].ignored)
            && ev.id !in r.engine.flickData[v].ignored
            && r.engine.flickData[v].ignored == RemoveAll(e.flickData[v].ignored, ev.id)
            && |r.engine.flickData[v].ignored| < |e.flickData[v].ignored|
            && (forall w :: w in e.flickData && w != v ==> r.engine.flickData[w] == e.flickData[w])
            && r.engine.(flickData := e.flickData) == e
  {
    var s := e.flickData[v].ignored;
    assert multiset(s)[ev.id] > 0;
  }

  // ---------------------------------------------------------------------------------------
  // eventFilter: the transitions

  /** Every event the record of v ignores was posted by the engine. */
  predicate IgnoresOnlyPosted(e: Engine, v: Widget)
    requires v in e.flickData
  {
    forall id :: id in e.flickData[v].ignored ==> Issued(id, e.nextPosted)
  }

  /** The engine invariant makes every record ignore only events the engine posted. */
  lemma WfIgnoresOnlyPosted(e: Engine, v: Widget)
    requires Wf(e) && v in e.flickData
    ensures IgnoresOnlyPosted(e, v)
  {
    forall id | id in e.flickData[v].ignored ensures Issued(id, e.nextPosted) {
    }
  }

  /** A record in `state` receives an unmodified mouse event it does not ignore. */
  predicate Receives(e: Engine, v: Widget, ev: Event, state: State)
  {
    && IsMouseType(ev.kind) && ev.noModifier
    && v in e.flickData && e.flickData[v].state == state
    && ev.id !in e.flickData[v].ignored
  }

  /** Only a move while a record is in Stop is consumed. */
  lemma ConsumedExactlyOnStopMove(e: Engine, obj: Object, ev: Event, cursor: Point)
    ensures Filter(e, obj, ev, cursor).consumed
        <==> obj.WidgetObject? && Receives(e, obj.widget, ev, Stop) && ev.kind == MouseMove
  {
  }

  /** A left-button press on a Steady record arms it with the press position and the current offset. */
  lemma PressArms(e: Engine, v: Widget, ev: Event, cursor: Point)
    requires Receives(e, v, ev, Steady) && ev.kind == MouseButtonPress && ev.leftButtonOnly
    ensures var r := Filter(e, WidgetObject(v), ev, cursor);
            var d := e.flickData[v];
            r == Reaction(e.(flickData := e.flickData[v := d.(state := Pressed, pressPos := ev.pos,
                                                               offset := ScrollOffset(e.scrollBars, d.widget))]), false)
  {
  }

  /**
    A release on a Pressed record is a tap: the record returns to Steady, ignores a press at
    the press position and a copy of the release, and both are posted to the viewport in that
    order under identities never used before.
  */
  lemma TapReplaysClick(e: Engine, v: Widget, ev: Event, cursor: Point)
    requires Receives(e, v, ev, Pressed) && ev.kind == MouseButtonRelease && IgnoresOnlyPosted(e, v)
    ensures var r := Filter(e, WidgetObject(v), ev, cursor);
            var d := e.flickData[v];
            var press := ReplayedPress(e, d);
            var release := ReplayedRelease(e, ev);
            && !r.consumed
            && r.engine.flickData == e.flickData[v := d.(state := Steady, ignored := d.ignored + [press.id, release.id])]
            && r.engine.posted == e.posted + [Posting(WidgetObject(v), press), Posting(WidgetObject(v), release)]
            && press.kind == MouseButtonPress && press.pos == d.pressPos && press.leftButtonOnly && press.noModifier
            && release.kind == ev.kind && release.pos == ev.pos
            && press.id !in d.ignored && release.id !in d.ignored && press.id != release.id
            && r.engine.scrollBars == e.scrollBars && r.engine.tickerActive == e.tickerActive
  {
  }

  /** removeAll distributes over concatenation. */
  lemma {:induction false} RemoveAllAppend(s: seq<EventId>, t: seq<EventId>, x: EventId)
    ensures RemoveAll(s + t, x) == RemoveAll(s, x) + RemoveAll(t, x)
  {
    if s == [] {
      assert s + t == t;
    } else {
      assert (s + t)[1..] == s[1..] + t;
      assert (s + t)[0] == s[0];
      RemoveAllAppend(s[1..], t, x);
    }
  }

  /** removeAll of an absent element keeps the list. */
  lemma {:induction false} RemoveAllAbsent(s: seq<EventId>, x: EventId)
    requires x !in s
    ensures RemoveAll(s, x) == s
  {
    if s != [] {
      assert s[0] != x;
      RemoveAllAbsent(s[1..], x);
      assert s == [s[0]] + s[1..];
    }
  }

  /** An event ignored exactly once is swallowed, and the ignored list closes up around it. */
  lemma SwallowIgnored(e: Engine, v: Widget, x: Event, s: seq<EventId>, tail: seq<EventId>, cursor: Point)
    requires IsMouseType(x.kind) && x.noModifier && v in e.flickData
    requires e.flickData[v].ignored == s + [x.id] + tail && x.id !in s && x.id !in tail
    ensures Filter(e, WidgetObject(v), x, cursor)
         == Reaction(e.(flickData := e.flickData[v := e.flickData[v].(ignored := s + tail)]), false)
  {
    RemoveAllAppend(s + [x.id], tail, x.id);
    RemoveAllAppend(s, [x.id], x.id);
    RemoveAllAbsent(s, x.id);
    RemoveAllAbsent(tail, x.id);
    assert RemoveAll([x.id], x.id) == [] by {
      assert [x.id][1..] == [];
    }
    assert s + [] == s;
  }

  /** A map updated twice at one key holds only the second value there. */
  lemma UpdateTwice(m: map<Widget, FlickData>, k: Widget, a: FlickData, b: FlickData)
    ensures m[k := a][k := b] == m[k := b]
  {
  }

  /** Two events ignored once each, coming back in order, leave the ignored list as it was before them. */
  lemma SwallowBoth(e: Engine, v: Widget, x: Event, y: Event, s: seq<EventId>, cursor1: Point, cursor2: Point)
    requires IsMouseType(x.kind) && x.noModifier && IsMouseType(y.kind) && y.noModifier && v in e.flickData
    requires e.flickData[v].ignored == s + [x.id, y.id] && x.id !in s && y.id !in s && x.id != y.id
    ensures var obj := WidgetObject(v);
            var r1 := Filter(e, obj, x, cursor1);
            var r2 := Filter(r1.engine, obj, y, cursor2);
            && !r1.consumed && !r2.consumed
            && r2.engine == e.(flickData := e.flickData[v := e.flickData[v].(ignored := s)])
  {
    var obj := WidgetObject(v);
    var d := e.flickData[v];
    assert d.ignored == s + [x.id] + [y.id];
    SwallowIgnored(e, v, x, s, [y.id], cursor1);
    var e2 := e.(flickData := e.flickData[v := d.(ignored := s + [y.id])]);
    assert Filter(e, obj, x, cursor1) == Reaction(e2, false);
    assert e2.flickData[v].ignored == s + [y.id] + [];
    SwallowIgnored(e2, v, y, s, [], cursor2);
    assert Filter(e2, obj, y, cursor2) == Reaction(e2.(flickData := e2.flickData[v := d.(ignored := s + [])]), false);
    assert s + [] == s;
    UpdateTwice(e.flickData, v, d.(ignored := s + [y.id]), d.(ignored := s));
  }

  /**
    When the two replayed events of a tap come back, each is swallowed unconsumed and dropped
    from the ignored list, so the record ends as it was before the tap but Steady.
  */
  lemma ReplayIgnoredOnce(e: Engine, v: Widget, ev: Event, cursor: Point, cursor1: Point, cursor2: Point)
    requires Receives(e, v, ev, Pressed) && ev.kind == MouseButtonRelease && IgnoresOnlyPosted(e, v)
    ensures var obj := WidgetObject(v);
            var e1 := Filter(e, obj, ev, cursor).engine;
            var r1 := Filter(e1, obj, ReplayedPress(e, e.flickData[v]), cursor1);
            var r2 := Filter(r1.engine, obj, ReplayedRelease(e, ev), cursor2);
            && !r1.consumed && !r2.consumed
            && r2.engine == e1.(flickData := e.flickData[v := e.flickData[v].(state := Steady)])
  {
    TapReplaysClick(e, v, ev, cursor);
    var d := e.flickData[v];
    var e1 := Filter(e, WidgetObject(v), ev, cursor).engine;
    SwallowBoth(e1, v, ReplayedPress(e, d), ReplayedRelease(e, ev), d.ignored, cursor1, cursor2);
    var tapped := d.(state := Steady, ignored := d.ignored + [ReplayedPressId(e), ReplayedReleaseId(e)]);
    assert e1.flickData == e.flickData[v := tapped];
    assert tapped.(ignored := d.ignored) == d.(state := Steady);
    UpdateTwice(e.flickData, v, tapped, d.(state := Steady));
  }

  /** A move on a Pressed record starts a drag: the drag position is the cursor and the ticker runs. */
  lemma MoveStartsDrag(e: Engine, v: Widget, ev: Event, cursor: Point)
    requires Receives(e, v, ev, Pressed) && ev.kind == MouseMove
    ensures var r := Filter(e, WidgetObject(v), ev, cursor);
            r == Reaction(e.(flickData := e.flickData[v := e.flickData[v].(state := ManualScroll, dragPos := cursor)],
                             tickerActive := true), false)
  {
  }

  /**
    A move while dragging scrolls the area to offset - (pos - pressPos) through the record's
    setter and changes nothing else: a vertical-only record keeps x, a horizontal-only one keeps y.
  */
  lemma DragScrollsByDelta(e: Engine, n: nat, ev: Event, cursor: Point)
    requires Wf(e) && Receives(e, Viewport(n), ev, ManualScroll) && ev.kind == MouseMove
    ensures var d := e.flickData[Viewport(n)];
            var r := Filter(e, WidgetObject(Viewport(n)), ev, cursor);
            var target := d.offset.Minus(ev.pos.Minus(d.pressPos));
            var now := Bar(r.engine.scrollBars, n);
            && !r.consumed
            && r.engine.scrollBars == e.scrollBars[n := ToScrollItem(d.scrollType, Bar(e.scrollBars, n), target)]
            && now.x == (if d.scrollType == FlickVertical then Bar(e.scrollBars, n).x else target.x)
            && now.y == (if d.scrollType == FlickHorizontal then Bar(e.scrollBars, n).y else target.y)
            && r.engine.(scrollBars := e.scrollBars) == e
  {
    assert e.flickData[Viewport(n)].widget == ScrollArea(n);
  }

  /** Where a drag scrolls to depends only on the last move, not on the moves before it. */
  lemma DragIsAbsolute(e: Engine, n: nat, ev1: Event, ev2: Event, cursor: Point)
    requires Wf(e) && Receives(e, Viewport(n), ev1, ManualScroll) && ev1.kind == MouseMove
    requires ev2.kind == MouseMove && ev2.noModifier && ev2.id !in e.flickData[Viewport(n)].ignored
    ensures var obj := WidgetObject(Viewport(n));
            Filter(Filter(e, obj, ev1, cursor).engine, obj, ev2, cursor) == Filter(e, obj, ev2, cursor)
  {
    assert e.flickData[Viewport(n)].widget == ScrollArea(n);
  }

  /** A release while dragging lets the area glide on. */
  lemma ReleaseStartsGlide(e: Engine, v: Widget, ev: Event, cursor: Point)
    requires Receives(e, v, ev, ManualScroll) && ev.kind == MouseButtonRelease
    ensures Filter(e, WidgetObject(v), ev, cursor)
         == Reaction(e.(flickData := e.flickData[v := e.flickData[v].(state := AutoScroll)]), false)
  {
  }

  /**
    A press while gliding stops it: speed (0, 0) and a fresh press position and offset, the
    event passes, and nothing else changes.
  */
  lemma PressStopsGlide(e: Engine, v: Widget, ev: Event, cursor: Point)
    requires Receives(e, v, ev, AutoScroll) && ev.kind == MouseButtonPress
    ensures var d := e.flickData[v];
            Filter(e, WidgetObject(v), ev, cursor)
              == Reaction(e.(flickData := e.flickData[v := d.(state := Stop, speed := Origin, pressPos := ev.pos,
                                                              offset := ScrollOffset(e.scrollBars, d.widget))]), false)
  {
  }

  /** A release while gliding settles the record at once: Steady with speed (0, 0). */
  lemma ReleaseEndsGlide(e: Engine, v: Widget, ev: Event, cursor: Point)
    requires Receives(e, v, ev, AutoScroll) && ev.kind == MouseButtonRelease
    ensures Filter(e, WidgetObject(v), ev, cursor)
         == Reaction(e.(flickData := e.flickData[v := e.flickData[v].(state := Steady, speed := Origin)]), false)
  {
  }

  /** A release after a glide was stopped by a press is a plain release: the record is Steady again. */
  lemma ReleaseAfterStopSettles(e: Engine, v: Widget, ev: Event, cursor: Point)
    requires Receives(e, v, ev, Stop) && ev.kind == MouseButtonRelease
    ensures Filter(e, WidgetObject(v), ev, cursor)
         == Reaction(e.(flickData := e.flickData[v := e.flickData[v].(state := Steady)]), false)
  {
  }

  /**
    A move after a glide was stopped resumes dragging from the cursor, starts the ticker,
    and is the one event the engine consumes.
  */
  lemma MoveAfterStopResumesDrag(e: Engine, v: Widget, ev: Event, cursor: Point)
    requires Receives(e, v, ev, Stop) && ev.kind == MouseMove
    ensures Filter(e, WidgetObject(v), ev, cursor)
         == Reaction(e.(flickData := e.flickData[v := e.flickData[v].(state := ManualScroll, dragPos := cursor)],
                        tickerActive := true), true)
  {
  }

  // ---------------------------------------------------------------------------------------
  // The shared ticker and the fixed scroll modes

  /** The shared ticker runs whenever some record is being dragged or is gliding. */
  predicate TickerRunsWhileActive(e: Engine)
  {
    AnyActive(e.flickData) ==> e.tickerActive
  }

  /** activateOn and deactivateFrom start no drag and no glide, so they keep the ticker promise. */
  lemma ActivationKeepsTickerRunning(e: Engine, w: Widget, mode: ScrollMode)
    requires TickerRunsWhileActive(e)
    ensures TickerRunsWhileActive(Activate(e, w, mode)) && TickerRunsWhileActive(Deactivate(e, w))
  {
    var a := Activate(e, w, mode);
    if AnyActive(a.flickData) {
      var v :| v in a.flickData && Active(a.flickData[v].state);
      assert v in e.flickData && Active(e.flickData[v].state);
    }
    var b := Deactivate(e, w);
    if AnyActive(b.flickData) {
      var v :| v in b.flickData && Active(b.flickData[v].state);
      assert v in e.flickData && Active(e.flickData[v].state);
    }
  }

  /** Every event that starts a drag also starts the ticker, so eventFilter keeps the ticker promise. */
  lemma FilterKeepsTickerRunning(e: Engine, obj: Object, ev: Event, cursor: Point)
    requires TickerRunsWhileActive(e)
    ensures TickerRunsWhileActive(Filter(e, obj, ev, cursor).engine)
  {
  }

  /** A tick starts no drag and no glide and keeps the ticker while any record was active. */
  lemma TickKeepsTickerRunning(e: Engine, cursor: Point)
    requires TickerRunsWhileActive(e)
    ensures TickerRunsWhileActive(Tick(e, cursor))
    ensures forall v :: v in e.flickData && !Active(e.flickData[v].state) ==> !Active(Tick(e, cursor).flickData[v].state)
  {
    var t := Tick(e, cursor);
    if AnyActive(t.flickData) {
      var v :| v in t.flickData && Active(t.flickData[v].state);
      assert t.flickData[v] == TickData(e.flickData[v], cursor);
      assert Active(e.flickData[v].state);
    }
  }

  /**
    A record's scroll mode and scroll area are fixed when activateOn creates it: eventFilter
    and ticks keep both, and neither adds nor drops a record.
  */
  lemma FilterKeepsModes(e: Engine, obj: Object, ev: Event, cursor: Point)
    ensures KeepsModes(e.flickData, Filter(e, obj, ev, cursor).engine.flickData)
  {
    if obj.WidgetObject? && IsMouseType(ev.kind) && ev.noModifier && obj.widget in e.flickData {
      var data := e.flickData[obj.widget];
      if ev.id in data.ignored {
        StoreKeepsModes(e.flickData, obj.widget, data.(ignored := RemoveAll(data.ignored, ev.id)));
      } else {
        ReactKeepsModes(e, obj, obj.widget, data, ev, cursor);
      }
    }
  }

  /** The records of `after` are those of `before`, each with its scroll mode and scroll area. */
  predicate KeepsModes(before: map<Widget, FlickData>, after: map<Widget, FlickData>)
  {
    && after.Keys == before.Keys
    && forall v :: v in before ==>
         after[v].scrollType == before[v].scrollType && after[v].widget == before[v].widget
  }

  /** Writing back a record with the same mode and area keeps the modes. */
  lemma StoreKeepsModes(fd: map<Widget, FlickData>, v: Widget, d: FlickData)
    requires v in fd && d.scrollType == fd[v].scrollType && d.widget == fd[v].widget
    ensures KeepsModes(fd, fd[v := d])
  {
  }

  /** The state switch of eventFilter rewrites only the record it handles and keeps its mode and area. */
  lemma ReactKeepsModes(e: Engine, obj: Object, viewport: Widget, data: FlickData, ev: Event, cursor: Point)
    requires viewport in e.flickData && data == e.flickData[viewport]
    ensures KeepsModes(e.flickData, React(e, obj, viewport, data, ev, cursor).engine.flickData)
  {
    if data.state == Steady || data.state == ManualScroll {
      ReactKeepsModesArming(e, obj, viewport, data, ev, cursor);
    } else if data.state == Pressed {
      ReactKeepsModesPressed(e, obj, viewport, data, ev, cursor);
    } else {
      ReactKeepsModesStopping(e, obj, viewport, data, ev, cursor);
    }
  }

  /** The state switch from Steady and from ManualScroll. */
  lemma ReactKeepsModesArming(e: Engine, obj: Object, viewport: Widget, data: FlickData, ev: Event, cursor: Point)
    requires viewport in e.flickData && data == e.flickData[viewport]
    requires data.state == Steady || data.state == ManualScroll
    ensures KeepsModes(e.flickData, React(e, obj, viewport, data, ev, cursor).engine.flickData)
  {
    StoreKeepsModes(e.flickData, viewport, data.(state := Pressed, pressPos := ev.pos, offset := ScrollOffset(e.scrollBars, data.widget)));
    StoreKeepsModes(e.flickData, viewport, data.(state := AutoScroll));
  }

  /** The state switch from Pressed. */
  lemma ReactKeepsModesPressed(e: Engine, obj: Object, viewport: Widget, data: FlickData, ev: Event, cursor: Point)
    requires viewport in e.flickData && data == e.flickData[viewport] && data.state == Pressed
    ensures KeepsModes(e.flickData, React(e, obj, viewport, data, ev, cursor).engine.flickData)
  {
    StoreKeepsModes(e.flickData, viewport, data.(state := Steady, ignored := data.ignored + [ReplayedPressId(e), ReplayedReleaseId(e)]));
    StoreKeepsModes(e.flickData, viewport, data.(state := ManualScroll, dragPos := cursor));
  }

  /** The state switch from AutoScroll and from Stop. */
  lemma ReactKeepsModesStopping(e: Engine, obj: Object, viewport: Widget, data: FlickData, ev: Event, cursor: Point)
    requires viewport in e.flickData && data == e.flickData[viewport]
    requires data.state == AutoScroll || data.state == Stop
    ensures KeepsModes(e.flickData, React(e, obj, viewport, data, ev, cursor).engine.flickData)
  {
    StoreKeepsModes(e.flickData, viewport, data.(state := Stop, speed := Origin, pressPos := ev.pos, offset := ScrollOffset(e.scrollBars, data.widget)));
    StoreKeepsModes(e.flickData, viewport, data.(state := Steady, speed := Origin));
    StoreKeepsModes(e.flickData, viewport, data.(state := Steady));
    StoreKeepsModes(e.flickData, viewport, data.(state := ManualScroll, dragPos := cursor));
  }

  lemma TickKeepsModes(e: Engine, cursor: Point)
    ensures KeepsModes(e.flickData, Tick(e, cursor).flickData)
  {
  }
}
