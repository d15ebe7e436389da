# Surf: flick scrolling and sliding windows

Surf is a set of Qt demos for small touch screens, in two layers.

**FlickCharm** is the flick gesture engine. It is installed as an event filter on scroll areas.
- It keeps one record per tracked viewport. Each record has:
  - a five-state machine: Steady, Pressed, ManualScroll, AutoScroll and Stop;
  - the press position, the scroll offset at the press, the drag position and the speed;
  - a list of the synthetic events the engine posted and must let through once.
- Press, move and release events drive the state machine.
  - A tap is replayed as a posted press and release.
  - A drag scrolls the area through a setter that writes both axes, only y, or only x.
- One shared ticker runs while any record is being dragged or is gliding.
  - A tick samples the drag speed.
  - While gliding, a tick steps the speed one unit toward zero and moves the scroll bars back by it. The speed is first clamped to 64 per axis.

**SlidingWindow** has three variants. Each is driven by a left and a right button:
- App_Item: five demo application widgets, side by side in a QGraphicsView.
- Graph_Item: one centred picture per screen in a QGraphicsView, each with a page number.
- Surf_QWidget: full-screen panels on a QWidget surface.

How the variants move:
- The two QGraphicsView variants keep the x position of the first item. A press changes it by one step. A left press does nothing once the first item is at the start. A right press does nothing once the first item is count - 1 steps left of the start. A timeline then runs over the old and new values and lays the items out on every frame.
- The QWidget variant keeps a focus index between 0 and count - 1, and a slide offset that follows it. A resize tiles the panels across a surface count screens wide.

How the model is built:
- A point is a pair of unbounded integers.
- A widget, pixmap or event is a value that carries its identity.
- Each engine or window is a Dafny class whose fields are the fields the source updates.
- FlickCharm also has a pure model, the datatype `Engine`, with functions `Activate`, `Deactivate`, `Filter` and `Tick`. The class methods are proved to compute exactly these functions. The properties of the engine are lemmas about the functions, in module `FlickProperties`.
- Both QGraphicsView variants share module `Slider`, which models the first-item counter. It proves that any button sequence keeps the first item on a column, that is, at position -(step * k) with 0 <= k <= count - 1.

Files:
- `geometry.dfy`: points, sizes, qMin/qMax/qBound/qAbs, nullable handles.
- `flick_charm.dfy`: the engine (module `Flick`).
- `flick_properties.dfy`: what the engine promises (module `FlickProperties`).
- `slider.dfy`: the first-item counter of the QGraphicsView windows (module `Slider`).
- `app_sliding_window.dfy`: module `AppItem`.
- `graph_sliding_window.dfy`: module `GraphItem`.
- `widget_sliding_window.dfy`: module `SurfWidget`.

Inputs to the model:
- `QCursor::pos()` is a `cursor` parameter of the event filter and of the tick.
- The scroll bar values of the host's scroll areas are a map in the engine state.
- `QApplication::postEvent` appends to a `posted` queue.
- An event is identified by an `EventId` in place of its pointer. The engine allocates the identities of the events it posts from a counter.

## Model

| member | source | states |
|---|---|---|
| Geometry.Bound | Src/Surf_QGraphicsView/App_Item/FlickCharm/flickcharm.cpp:169-170 | qBound(lo, v, hi) lies in [lo, hi] when lo <= hi, is v when v already lies there, lo when v is at or below lo, and hi when v is at or above hi |
| Flick.ToScrollItem | Src/Surf_QGraphicsView/App_Item/FlickCharm/flickcharm.cpp:139-165 | the setter hooked for each scroll mode writes exactly its own axes: vertical keeps x, horizontal keeps y, both writes both |
| Flick.DeaccelerateAxis | Src/Surf_QGraphicsView/App_Item/FlickCharm/flickcharm.cpp:167-176 | a component's magnitude becomes max(min(\|v\|, max) - a, 0), and its sign never flips |
| Flick.RemoveAll | Src/Surf_QGraphicsView/App_Item/FlickCharm/flickcharm.cpp:195 | removeAll drops every occurrence of the event, keeps every other element, and the length drops by the number of occurrences |
| Flick.Store | Src/Surf_QGraphicsView/App_Item/FlickCharm/flickcharm.cpp:194-280 | writing back a record that keeps its widget and ignores only issued events keeps the engine invariant |
| Flick.PostingTwoKeepsWf | Src/Surf_QGraphicsView/App_Item/FlickCharm/flickcharm.cpp:216-224 | posting two events under fresh identities keeps the engine invariant |
| Flick.React | Src/Surf_QGraphicsView/App_Item/FlickCharm/flickcharm.cpp:198-286 | the state switch of eventFilter keeps the engine invariant |
| Flick.Filter | Src/Surf_QGraphicsView/App_Item/FlickCharm/flickcharm.cpp:178-287 | eventFilter keeps the engine invariant: every record is keyed by its own viewport and ignores only events the engine posted |
| Flick.RecordsTickedStep | Src/Surf_QGraphicsView/App_Item/FlickCharm/flickcharm.cpp:293-315 | one more loop iteration replaces exactly one pending record by its ticked version |
| Flick.BarsTickedStep | Src/Surf_QGraphicsView/App_Item/FlickCharm/flickcharm.cpp:303-314 | one more loop iteration moves only the bars of that record's area, and only when it auto-scrolls |
| Flick.TickedAll | Src/Surf_QGraphicsView/App_Item/FlickCharm/flickcharm.cpp:291-318 | once no record is pending, the loop's records, bars and active count are those of the whole tick |
| Flick.TickKeepsWf | Src/Surf_QGraphicsView/App_Item/FlickCharm/flickcharm.cpp:289-321 | a tick keeps the engine invariant |
| Flick.TickRecord | Src/Surf_QGraphicsView/App_Item/FlickCharm/flickcharm.cpp:295-314 | the loop body samples the speed of a dragged record, decelerates a gliding one and moves its bars back by the new speed, settles at speed zero, and says whether the record was active |
| Flick.TickNext | Src/Surf_QGraphicsView/App_Item/FlickCharm/flickcharm.cpp:293-315 | one iteration takes the partial tick one record further and counts the record if it was active |
| Flick.TickEach | Src/Surf_QGraphicsView/App_Item/FlickCharm/flickcharm.cpp:291-315 | the loop over the hash yields the ticked records and bars whatever the iteration order; the count is positive exactly when some record was dragging or gliding |
| Flick.ScrollTo | Src/Surf_QGraphicsView/App_Item/FlickCharm/flickcharm.cpp:139-165 | calling the hooked setter on a scroll area writes that area's bars through the mode's setter; a non-scroll-area is left alone, and no other area's bars change |
| Flick.ScrollOffset | Src/Surf_QGraphicsView/App_Item/FlickCharm/flickcharm.cpp:125-136 | the scroll bar values of a scroll area, (0, 0) for any other widget |
| Flick.Deaccelerate | Src/Surf_QGraphicsView/App_Item/FlickCharm/flickcharm.cpp:167-176 | deaccelerate applied to both components, with the default step 1 and limit 64; its properties are DeaccelerateLowersClamped and DeacceleratePreservesSign |
| Flick.NewRecord | Src/Surf_QGraphicsView/App_Item/FlickCharm/flickcharm.cpp:87-91 | the record activateOn creates: Steady, default points, nothing ignored, the given mode |
| Flick.Activate | Src/Surf_QGraphicsView/App_Item/FlickCharm/flickcharm.cpp:73-106 | activateOn on the engine state; its properties are ActivateReplacesRecord, ActivationKeepsWf and ActivationKeepsTickerRunning |
| Flick.Deactivate | Src/Surf_QGraphicsView/App_Item/FlickCharm/flickcharm.cpp:108-123 | deactivateFrom on the engine state; its properties are DeactivateRemovesRecord and ActivationKeepsWf |
| Flick.TickData | Src/Surf_QGraphicsView/App_Item/FlickCharm/flickcharm.cpp:297-314 | what one tick does to one record; its properties are AutoScrollSettles and SteadyStaysSteady |
| Flick.AutoScrollStep | Src/Surf_QGraphicsView/App_Item/FlickCharm/flickcharm.cpp:305-310 | a gliding area's bars moved back by the decelerated speed through the record's setter |
| Flick.Tick | Src/Surf_QGraphicsView/App_Item/FlickCharm/flickcharm.cpp:289-321 | timerEvent on the engine state; its properties are TickIsPerRecord, IdleTickStopsTicker, TickKeepsTickerRunning and TickKeepsModes |
| Flick.FlickCharm.constructor | Src/Surf_QGraphicsView/App_Item/FlickCharm/flickcharm.cpp:56-66 | a fresh engine has no record, watches nothing, has posted nothing and has its ticker stopped |
| Flick.FlickCharm.ActivateOn | Src/Surf_QGraphicsView/App_Item/FlickCharm/flickcharm.cpp:73-106 | activateOn computes Activate and keeps the invariant |
| Flick.FlickCharm.DeactivateFrom | Src/Surf_QGraphicsView/App_Item/FlickCharm/flickcharm.cpp:108-123 | deactivateFrom computes Deactivate and keeps the invariant |
| Flick.FlickCharm.EventFilter | Src/Surf_QGraphicsView/App_Item/FlickCharm/flickcharm.cpp:178-287 | eventFilter computes Filter, both its new state and its return value, and keeps the invariant |
| Flick.FlickCharm.Dispatch | Src/Surf_QGraphicsView/App_Item/FlickCharm/flickcharm.cpp:198-286 | the in-place updates of the state switch compute React |
| Flick.FlickCharm.TimerEvent | Src/Surf_QGraphicsView/App_Item/FlickCharm/flickcharm.cpp:289-321 | timerEvent computes Tick, including stopping the ticker when no record was active, and keeps the invariant |
| FlickProperties.SettleTicks | Src/Surf_QGraphicsView/App_Item/FlickCharm/flickcharm.cpp:167-176 | the number of ticks a glide needs to settle is between 1 and 64 |
| FlickProperties.DeaccelerateLowersClamped | Src/Surf_QGraphicsView/App_Item/FlickCharm/flickcharm.cpp:167-176 | with its default arguments, deaccelerate lowers the larger clamped component by exactly one, and reaches (0, 0) exactly when that is zero |
| FlickProperties.DeacceleratePreservesSign | Src/Surf_QGraphicsView/App_Item/FlickCharm/flickcharm.cpp:172-173 | no component changes sign, and a zero component stays zero |
| FlickProperties.AutoScrollSettles | Src/Surf_QGraphicsView/App_Item/FlickCharm/flickcharm.cpp:303-314 | a gliding record keeps gliding for SettleTicks - 1 ticks, then is Steady with speed (0, 0): at most 64 ticks from any speed |
| FlickProperties.SteadyStaysSteady | Src/Surf_QGraphicsView/App_Item/FlickCharm/flickcharm.cpp:297-314 | ticks leave a Steady record unchanged |
| FlickProperties.TickIsPerRecord | Src/Surf_QGraphicsView/App_Item/FlickCharm/flickcharm.cpp:293-315 | a tick updates each record on its own, moves only the bars of gliding areas, and keeps the watched set and the posted queue |
| FlickProperties.IdleTickStopsTicker | Src/Surf_QGraphicsView/App_Item/FlickCharm/flickcharm.cpp:291-318 | a tick in which no record was dragging or gliding changes nothing but stopping the ticker |
| FlickProperties.ActiveTickKeepsTicker | Src/Surf_QGraphicsView/App_Item/FlickCharm/flickcharm.cpp:297-318 | while some record drags or glides, a running ticker keeps running |
| FlickProperties.ActivateReplacesRecord | Src/Surf_QGraphicsView/App_Item/FlickCharm/flickcharm.cpp:76-106 | on a scroll area, any old record is replaced by exactly one fresh Steady record with the given mode and nothing ignored, other records, the scroll bars, the ticker and the posted queue are kept, and both widgets are watched; on any other widget nothing changes |
| FlickProperties.DeactivateRemovesRecord | Src/Surf_QGraphicsView/App_Item/FlickCharm/flickcharm.cpp:108-123 | on a scroll area, exactly the viewport's record is dropped and exactly the two widgets leave the watched set, with the scroll bars, the ticker and the posted queue kept; on any other widget nothing changes |
| FlickProperties.ActivationKeepsWf | Src/Surf_QGraphicsView/App_Item/FlickCharm/flickcharm.cpp:73-123 | activateOn and deactivateFrom keep the engine invariant |
| FlickProperties.FilterPassesUntracked | Src/Surf_QGraphicsView/App_Item/FlickCharm/flickcharm.cpp:180-196 | a non-widget object, a non-mouse event, a held modifier or an untracked widget gives false and leaves the state untouched |
| FlickProperties.FilterDropsIgnored | Src/Surf_QGraphicsView/App_Item/FlickCharm/flickcharm.cpp:194-196 | an ignored event gives false and is removed from that record's ignored list (RemoveAll: every occurrence goes, the other entries keep their order), and nothing else changes |
| FlickProperties.WfIgnoresOnlyPosted | Src/Surf_QGraphicsView/App_Item/FlickCharm/flickcharm.cpp:216-222 | under the engine invariant, a record ignores only events the engine posted |
| FlickProperties.ConsumedExactlyOnStopMove | Src/Surf_QGraphicsView/App_Item/FlickCharm/flickcharm.cpp:198-286 | eventFilter returns true exactly for a move on a Stop record that reaches the state machine |
| FlickProperties.PressArms | Src/Surf_QGraphicsView/App_Item/FlickCharm/flickcharm.cpp:201-210 | a left-button press on a Steady record makes it Pressed, with the press position and the current scroll offset, and nothing else changes |
| FlickProperties.TapReplaysClick | Src/Surf_QGraphicsView/App_Item/FlickCharm/flickcharm.cpp:212-225 | a release on a Pressed record makes it Steady, appends a left-button press at the press position and a copy of the release to the ignored list, and posts both in that order under fresh, distinct identities |
| FlickProperties.RemoveAllAppend | Src/Surf_QGraphicsView/App_Item/FlickCharm/flickcharm.cpp:195 | removeAll distributes over concatenation |
| FlickProperties.RemoveAllAbsent | Src/Surf_QGraphicsView/App_Item/FlickCharm/flickcharm.cpp:195 | removeAll of an absent event keeps the list |
| FlickProperties.SwallowIgnored | Src/Surf_QGraphicsView/App_Item/FlickCharm/flickcharm.cpp:194-196 | an event ignored once is let through, and the ignored list closes up around it |
| FlickProperties.SwallowBoth | Src/Surf_QGraphicsView/App_Item/FlickCharm/flickcharm.cpp:194-196 | two events ignored once each, arriving in order, both pass, and the list is as it was before them |
| FlickProperties.ReplayIgnoredOnce | Src/Surf_QGraphicsView/App_Item/FlickCharm/flickcharm.cpp:194-225 | when a tap's two replayed events come back, both pass unconsumed, and the record ends as before the tap but Steady |
| FlickProperties.MoveStartsDrag | Src/Surf_QGraphicsView/App_Item/FlickCharm/flickcharm.cpp:227-234 | a move on a Pressed record starts a drag from the cursor and starts the ticker |
| FlickProperties.DragScrollsByDelta | Src/Surf_QGraphicsView/App_Item/FlickCharm/flickcharm.cpp:237-246 | a move while dragging sets the area's bars to offset - (pos - pressPos) through the record's setter: vertical-only keeps x, horizontal-only keeps y, nothing else changes |
| FlickProperties.DragIsAbsolute | Src/Surf_QGraphicsView/App_Item/FlickCharm/flickcharm.cpp:237-246 | where a drag scrolls depends only on the last move |
| FlickProperties.ReleaseStartsGlide | Src/Surf_QGraphicsView/App_Item/FlickCharm/flickcharm.cpp:247-250 | a release while dragging makes the record AutoScroll and changes nothing else |
| FlickProperties.PressStopsGlide | Src/Surf_QGraphicsView/App_Item/FlickCharm/flickcharm.cpp:253-260 | a press while gliding goes to Stop with speed (0, 0) and takes a fresh press position and offset; the event passes and nothing else changes |
| FlickProperties.ReleaseEndsGlide | Src/Surf_QGraphicsView/App_Item/FlickCharm/flickcharm.cpp:261-265 | a release while gliding makes the record Steady with speed (0, 0), and changes nothing else |
| FlickProperties.ReleaseAfterStopSettles | Src/Surf_QGraphicsView/App_Item/FlickCharm/flickcharm.cpp:269-272 | a release on a Stop record makes it Steady, and changes nothing else |
| FlickProperties.MoveAfterStopResumesDrag | Src/Surf_QGraphicsView/App_Item/FlickCharm/flickcharm.cpp:273-279 | a move on a Stop record resumes dragging from the cursor, starts the ticker and is consumed; nothing else changes |
| FlickProperties.ActivationKeepsTickerRunning | Src/Surf_QGraphicsView/App_Item/FlickCharm/flickcharm.cpp:73-123 | activateOn and deactivateFrom keep the promise that the ticker runs while some record drags or glides |
| FlickProperties.FilterKeepsTickerRunning | Src/Surf_QGraphicsView/App_Item/FlickCharm/flickcharm.cpp:227-279 | eventFilter keeps that promise: every transition into a drag starts the ticker |
| FlickProperties.TickKeepsTickerRunning | Src/Surf_QGraphicsView/App_Item/FlickCharm/flickcharm.cpp:291-318 | a tick keeps that promise: the ticker is stopped only after a tick in which no record was active, and a tick starts no drag or glide |
| FlickProperties.FilterKeepsModes | Src/Surf_QGraphicsView/App_Item/FlickCharm/flickcharm.cpp:178-287 | eventFilter neither adds nor drops a record, and keeps every record's scroll mode and scroll area as activateOn set them |
| FlickProperties.TickKeepsModes | Src/Surf_QGraphicsView/App_Item/FlickCharm/flickcharm.cpp:289-321 | a tick neither adds nor drops a record, and keeps every record's scroll mode and scroll area |
| Slider.AfterLeft | Src/Surf_QGraphicsView/App_Item/SlidingWindow.cpp:237-238 | a left press moves the first item exactly when it is left of the start, and then by +step |
| Slider.AfterRight | Src/Surf_QGraphicsView/App_Item/SlidingWindow.cpp:260-261 | a right press moves exactly when the first item is less than count - 1 steps left of the start, and then by -step |
| Slider.ColumnAfter | Src/Surf_QGraphicsView/App_Item/SlidingWindow.cpp:237-261 | the column a press leads to: one back unless at column 0, one on unless at the last column; PressMovesColumn ties it to the position counter |
| Slider.Slides | Src/Surf_QGraphicsView/App_Item/SlidingWindow.cpp:224-262 | the position after a sequence of presses, each made with the timeline idle; its properties are SlidesFollowColumns and FromStartStaysOnWindow |
| Slider.PressMovesColumn | Src/Surf_QGraphicsView/App_Item/SlidingWindow.cpp:237-261 | from a column, a press lands on the neighbouring column, or on the same one at an end, and stays within the window's columns |
| Slider.SlidesFollowColumns | Src/Surf_QGraphicsView/App_Item/SlidingWindow.cpp:237-261 | any press sequence from a column moves along the column model and stays within the window |
| Slider.FromStartStaysOnWindow | Src/Surf_QGraphicsView/App_Item/SlidingWindow.cpp:137 | from slideBy(0), every press sequence keeps the position a multiple of step within [-(step * (count - 1)), 0] |
| Slider.PressesUndo | Src/Surf_QGraphicsView/App_Item/SlidingWindow.cpp:237-261 | a left press undone by a right press returns to the same column, and the other way round |
| Slider.EveryColumnReachable | Src/Surf_QGraphicsView/App_Item/SlidingWindow.cpp:260-261 | every column of the window is reached from the start by right presses |
| AppItem.SlotX | Src/Surf_QGraphicsView/App_Item/SlidingWindow.cpp:200-203 | the special case for the first widget gives the same pitch: widget k is placed at k * 550 |
| AppItem.Placed | Src/Surf_QGraphicsView/App_Item/SlidingWindow.cpp:200-208 | after n additions, the proxies stand at (k * 550, 0) |
| AppItem.Moved | Src/Surf_QGraphicsView/App_Item/SlidingWindow.cpp:278-279 | the layout of one timeline frame; its properties are MovedSpacing, FrameZeroIsPlacement and FramesForget |
| AppItem.MovedSpacing | Src/Surf_QGraphicsView/App_Item/SlidingWindow.cpp:276-280 | after a frame the first item is at the offset, the neighbours are 550 apart, and every y is kept |
| AppItem.FrameZeroIsPlacement | Src/Surf_QGraphicsView/App_Item/SlidingWindow.cpp:200-203 | a frame at offset 0 restores the layout addWidgetItem builds |
| AppItem.FramesForget | Src/Surf_QGraphicsView/App_Item/SlidingWindow.cpp:276-280 | a frame does not depend on earlier frames |
| AppItem.SlidingWindow.constructor | Src/Surf_QGraphicsView/App_Item/SlidingWindow.cpp:44-139 | five default widgets at their slots; slideBy(0) starts the timeline over 0..0; left disabled, right enabled |
| AppItem.SlidingWindow.AddDefaultWidgetItems | Src/Surf_QGraphicsView/App_Item/SlidingWindow.cpp:147-180 | adds the five demo widgets in order at their slots |
| AppItem.SlidingWindow.AddWidgetItem | Src/Surf_QGraphicsView/App_Item/SlidingWindow.cpp:188-215 | NULL is a no-op; otherwise the widget and a proxy at its slot are appended, and nothing else changes |
| AppItem.SlidingWindow.SlideLeft | Src/Surf_QGraphicsView/App_Item/SlidingWindow.cpp:224-239 | nothing while the timeline runs; otherwise the position advances as AfterLeft says, and a slide starts the timeline and updates the buttons |
| AppItem.SlidingWindow.SlideRight | Src/Surf_QGraphicsView/App_Item/SlidingWindow.cpp:247-262 | nothing while the timeline runs; otherwise the position advances as AfterRight says, and a slide starts the timeline and updates the buttons |
| AppItem.SlidingWindow.SlideBy | Src/Surf_QGraphicsView/App_Item/SlidingWindow.cpp:307-335 | the frame range is (old, old + d), the position becomes old + d, and each button is enabled exactly when a press on it would slide |
| AppItem.SlidingWindow.MoveItem | Src/Surf_QGraphicsView/App_Item/SlidingWindow.cpp:270-281 | with more than one proxy, proxy i goes to offset + i * 550 with its y kept; with at most one, nothing changes |
| AppItem.SlidingWindow.TimelineFinished | Src/Surf_QGraphicsView/App_Item/SlidingWindow.cpp:289-298 | the timeline stops, and nothing else changes |
| GraphItem.Margin | Src/Surf_QGraphicsView/Graph_Item/SlidingWindow.cpp:320-342 | the margin centres the picture in the screen, rounding down, and is 0 when the picture is at least as large |
| GraphItem.AddImage | Src/Surf_QGraphicsView/Graph_Item/SlidingWindow.cpp:296-300 | (corrected) one pass of addImages' loop: a null pixmap is skipped; any other picture is centred in the next slot, with its page number at its corner |
| GraphItem.Album | Src/Surf_QGraphicsView/Graph_Item/SlidingWindow.cpp:193-302 | (corrected) the scene addImages builds, page numbers counting files from 1; its property is AlbumPaired |
| GraphItem.MovedItem | Src/Surf_QGraphicsView/Graph_Item/SlidingWindow.cpp:454 | (corrected) a picture moved to slot i counted from the offset, keeping its centring margin and its y |
| GraphItem.Moved | Src/Surf_QGraphicsView/Graph_Item/SlidingWindow.cpp:451-459 | (corrected) the scene after one frame; its properties are MovedKeepsPairing, FrameZeroIsPlacement and FramesForget |
| GraphItem.AddImageAsWritten | Src/Surf_QGraphicsView/Graph_Item/SlidingWindow.cpp:296-318 | as written: setImageItemPos places and appends even a null pixmap, and setImageItemNoPos then adds no page number for it |
| GraphItem.AlbumAsWritten | Src/Surf_QGraphicsView/Graph_Item/SlidingWindow.cpp:193-302 | as written: the scene addImages builds, which a failing file leaves with fewer page numbers than pictures |
| GraphItem.MoveItemAsWritten | Src/Surf_QGraphicsView/Graph_Item/SlidingWindow.cpp:451-459 | as written: picture i at offset + i * width() without margin; None when page number i is past the end of its list |
| GraphItem.AlbumPaired | Src/Surf_QGraphicsView/Graph_Item/SlidingWindow.cpp:193-300 | (corrected) the scene addImages builds has one page number per picture, at the picture's corner, no null picture, and every picture centred in the slot of its index |
| GraphItem.MovedKeepsPairing | Src/Surf_QGraphicsView/Graph_Item/SlidingWindow.cpp:451-459 | a frame keeps each page number at its picture's corner and keeps the pixmaps |
| GraphItem.FrameZeroIsPlacement | Src/Surf_QGraphicsView/Graph_Item/SlidingWindow.cpp:345 | (corrected) for the corrected frame layout Moved, a frame at offset 0 restores the centred layout of setImageItemPos; moveItem as written does not (see Findings) |
| GraphItem.FramesForget | Src/Surf_QGraphicsView/Graph_Item/SlidingWindow.cpp:451-459 | a frame does not depend on earlier frames |
| GraphItem.UnloadableImageOverrunsPageNumbers | Src/Surf_QGraphicsView/Graph_Item/SlidingWindow.cpp:296-300 | as written, an image that loads followed by one that does not gives two pictures but one page number, and moveItem indexes past the page numbers |
| GraphItem.FrameDropsCentering | Src/Surf_QGraphicsView/Graph_Item/SlidingWindow.cpp:454 | as written, after a right press over two 800-pixel-wide pictures, the slide's last frame (offset -1024) puts the second picture at x = 0; the centred layout puts it at x = 112 |
| GraphItem.SlidingWindow.constructor | Src/Surf_QGraphicsView/Graph_Item/SlidingWindow.cpp:45-145 | (corrected) the window holds the album of the given pixmaps, every picture on its slot; slideBy(0) starts the timeline and sets the buttons |
| GraphItem.SlidingWindow.AddImages | Src/Surf_QGraphicsView/Graph_Item/SlidingWindow.cpp:193-302 | (corrected) the loop over the files builds the album, with page i + 1 for file i |
| GraphItem.SlidingWindow.SetImageItemPos | Src/Surf_QGraphicsView/Graph_Item/SlidingWindow.cpp:311-356 | NULL (and, corrected, a null pixmap) is a no-op; otherwise the picture is centred in the next free slot and appended |
| GraphItem.SlidingWindow.SetImageItemNoPos | Src/Surf_QGraphicsView/Graph_Item/SlidingWindow.cpp:368-389 | a NULL item or text, or a null pixmap, is a no-op; otherwise a page number is appended 50 and 30 pixels inside the picture's bottom-right corner |
| GraphItem.SlidingWindow.SlideLeft | Src/Surf_QGraphicsView/Graph_Item/SlidingWindow.cpp:399-414 | nothing while the timeline runs; otherwise the position advances by +1024 as AfterLeft says, and a slide starts the timeline and updates the buttons |
| GraphItem.SlidingWindow.SlideRight | Src/Surf_QGraphicsView/Graph_Item/SlidingWindow.cpp:422-437 | nothing while the timeline runs; otherwise the position advances by -1024 as AfterRight says, and a slide starts the timeline and updates the buttons |
| GraphItem.SlidingWindow.SlideBy | Src/Surf_QGraphicsView/Graph_Item/SlidingWindow.cpp:483-509 | the frame range is (old, old + d), the position becomes old + d, and the buttons show whether a press would slide |
| GraphItem.SlidingWindow.MoveItem | Src/Surf_QGraphicsView/Graph_Item/SlidingWindow.cpp:445-460 | every picture goes to its slot counted from the offset, centred as in setImageItemPos (corrected), with its page number at its corner; the pairing invariant is kept |
| GraphItem.SlidingWindow.TimelineFinished | Src/Surf_QGraphicsView/Graph_Item/SlidingWindow.cpp:468-475 | the timeline stops, and nothing else changes |
| SurfWidget.DefaultPanels | Src/Surf_QWidget/SlidingWindow.cpp:158-191 | the five demo panels, each 350 x 600, in order; AddDefaultWidgetItems builds exactly these |
| SurfWidget.Resized | Src/Surf_QWidget/SlidingWindow.cpp:293-297 | the panels after a resize; its property is ResizedTiles |
| SurfWidget.ResizedTiles | Src/Surf_QWidget/SlidingWindow.cpp:287-297 | after a resize, the panels keep their widgets and order, all have the new size, and tile the surface from 0 to newWidth * count |
| SurfWidget.ButtonsMatchMoves | Src/Surf_QWidget/SlidingWindow.cpp:230-231 | the left button is enabled exactly when a left press would move the focus, and likewise the right |
| SurfWidget.SlidingWindow.constructor | Src/Surf_QWidget/SlidingWindow.cpp:39-94 | the focus is on the home screen with slide offset 0; the five default panels; left disabled, right enabled |
| SurfWidget.SlidingWindow.AddDefaultWidgetItems | Src/Surf_QWidget/SlidingWindow.cpp:158-191 | adds the five demo widgets, each 350 x 600, in order |
| SurfWidget.SlidingWindow.AddWidgetItem | Src/Surf_QWidget/SlidingWindow.cpp:140-150 | NULL is a no-op; otherwise the panel list grows by exactly that widget |
| SurfWidget.SlidingWindow.SlideLeft | Src/Surf_QWidget/SlidingWindow.cpp:199-232 | nothing while the animation runs; otherwise the old focus is recorded, the focus moves back one panel unless it is at 0, the slide offset follows, the animation starts towards it, and the buttons reflect the ends; focus stays within [0, count - 1] |
| SurfWidget.SlidingWindow.SlideRight | Src/Surf_QWidget/SlidingWindow.cpp:240-271 | the mirror image of SlideLeft, towards count - 1 |
| SurfWidget.SlidingWindow.ResizeEvent | Src/Surf_QWidget/SlidingWindow.cpp:279-300 | the surface becomes (newWidth * count, newHeight), and panel i is resized to the new size and moved to (i * newWidth, 0) |
| SurfWidget.SlidingWindow.AnimationFinished | Src/Surf_QWidget/SlidingWindow.cpp:224-227 | the animation stops, and nothing else changes |

## Left out

Flick engine:
- Flick.FlickCharm.ActivateOn: the scroll mode is one of the three FLICK_* modes. An out-of-range mode leaves the setter pointer unset, and a later drag then calls through it. That is undefined behaviour, and it is not modelled.
- Setting the scroll-bar policies to always-off in activateOn is not modelled, because it is layout only.
- The warning printed for a widget that is not a scroll area is not modelled.
- QScrollBar::setValue clamps to the scroll bar's range. The model writes the value as given, so scroll positions are unbounded.
- The ticker's 20 ms interval and the call to QObject::timerEvent are not modelled. The ticker is a running flag.
- Deleting records, and the deletion of posted events by Qt, are not modelled. Memory management is outside the model.
- QAbstractScrollArea::setViewport is not modelled: a scroll area's viewport is fixed as Viewport(id) for its whole life, so a viewport replaced after activateOn is not tracked.
- QWebView as a target is not modelled. Only QAbstractScrollArea is handled, by the same dynamic_cast test.

Sliding windows:
- The QTimeLine and QPropertyAnimation interpolation is not modelled. Each is a running flag plus its frame range or end value. Frames reach MoveItem as calls with any offset.
- GraphItem.SlidingWindow.AddImages: the images arrive as a list of pixmaps already scaled to the screen. Listing the image directory, loading files, and the floating-point scaling of oversized pixmaps are not modelled.
- GraphItem.SlidingWindow.AddImages: the model does not reproduce the source's NULL item dereference in the setImageItemNoPos call. That case arises only when scaling gives no item.
- Pens, brushes and fonts of the page numbers are not modelled, and neither is the "P.n" text beyond its page number.
- Only the USE_CONTROL_PANEL build is modelled. In the build without a control panel, FlickCharm drives the App_Item window.
- Graph_Item is modelled only with ADD_PAGE_NUM.
- The fixed 1024 x 600 window size is modelled. The full-screen size branch is not.
- moveItemFinish only logs, so the finished signal just stops the timeline.
- SurfWidget.SlidingWindow: setSlideOffset and slideOffset are not modelled, because they are floating-point ratio code using qRound and qFuzzyCompare.
  - The surface scroll and the show/hide of panels are therefore not modelled.
  - The animation's start value is not modelled.
  - The slide-offset call at the end of resizeEvent is not modelled.
  - m_itemSlideOffset is held as an integer, since it only ever changes by whole steps from 0.
- SurfWidget.SlidingWindow.constructor: the initial size of the sliding surface is unspecified until the first resize.
- setFocus, setWindowFlags, stylesheets, the tool window, button connections and debug logging are not modelled.
- The demo applications, the three main.cpp files and the headers are not modelled. They hold construction and painting code only, and the model refers to the applications by name.

## Findings

| source | as written | input that shows it | evidently intended | confidence | as-written member | corrected member |
|---|---|---|---|---|---|---|
| Src/Surf_QGraphicsView/Graph_Item/SlidingWindow.cpp:296-300, 313-318, 378-383, 457 | A file that fails to load gives a null pixmap. setImageItemPos still places it and appends it to m_slideItems, but setImageItemNoPos skips it, so m_slidePgNumItems falls behind. moveItem then indexes page number i for every picture, past the end of that list. | An image directory holding a loadable 800 x 600 picture and then an unreadable file: two pictures, one page number. The first frame reads index 1 of a one-element list. | A picture without a page number is never kept: the null pixmap is skipped by both calls, so the two lists stay paired. | high for the index overrun; not executed | GraphItem.UnloadableImageOverrunsPageNumbers (on GraphItem.AlbumAsWritten and GraphItem.MoveItemAsWritten) | GraphItem.SlidingWindow.SetImageItemPos, with GraphItem.AlbumPaired |
| Src/Surf_QGraphicsView/Graph_Item/SlidingWindow.cpp:454 | moveItem puts picture i at offset + i * width(), without the centring margin setImageItemPos added. So the frames of any slide move narrow pictures to the left edge of their screen. | Two 800 x 600 pictures, centred at x = 112 and x = 1136. A right press slides from 0 to -1024. The last frame, at -1024, puts the second picture at x = 0 instead of 112. | Each frame keeps the horizontal centring: x = offset + i * width() + (width() - pixmap width) / 2 for a narrower picture. | medium, since the left-aligned layout may be accepted as it is; not executed | GraphItem.FrameDropsCentering (on GraphItem.MoveItemAsWritten) | GraphItem.SlidingWindow.MoveItem, with GraphItem.FrameZeroIsPlacement |
