/**
 * The first-item position counter shared by the two QGraphicsView sliding windows
 * (m_nNewPosOfFirstItem): a left press slides by +step while the first item is left of
 * column 0, a right press by -step while it is right of column -(count - 1), that is
 * while pos > -(step * (count - 1)).
 */
module Slider {
  import opened Geometry

  /** ITEM_POS_START_X in both QGraphicsView variants. */
  const StartX := 0

  /** A click on the left or the right push button of the control panel. */
  datatype Press = Left | Right

  /** The guard of slideLeft and the state of the left button after slideBy. */
  predicate CanSlideLeft(pos: int) {
    !(pos >= StartX)
  }

  /** The guard of slideRight and the state of the right button after slideBy. */
  predicate CanSlideRight(pos: int, step: int, count: int) {
    !(pos <= -(step * (count - 1)))
  }

  /** The position after a left press while the timeline is idle. */
  function AfterLeft(pos: int, step: int): (r: int)
    requires step > 0
    ensures r != pos <==> CanSlideLeft(pos)
    ensures CanSlideLeft(pos) ==> r == pos + step
  {
    if CanSlideLeft(pos) then pos + step else pos
  }

  /** The position after a right press while the timeline is idle. */
  function AfterRight(pos: int, step: int, count: int): (r: int)
    requires step > 0
    ensures r != pos <==> CanSlideRight(pos, step, count)
    ensures CanSlideRight(pos, step, count) ==> r == pos - step
  {
    if CanSlideRight(pos, step, count) then pos - step else pos
  }

  function After(pos: int, step: int, count: int, p: Press): int
    requires step > 0
  {
    match p
    case Left => AfterLeft(pos, step)
    case Right => AfterRight(pos, step, count)
  }

  /** The position after the presses, first to last, each made with the timeline idle. */
  function Slides(pos: int, step: int, count: int, presses: seq<Press>): int
    requires step > 0
    decreases |presses|
  {
    if presses == [] then pos else Slides(After(pos, step, count, presses[0]), step, count, presses[1..])
  }

  /**
   * The column model: the first item is on column k when its position is -(step * k).
   * A left press moves one column back unless at column 0, a right press one column
   * on unless at the last column.
   */
  function ColumnAfter(k: int, count: int, p: Press): int {
    match p
    case Left => if k > 0 then k - 1 else k
    case Right => if k < count - 1 then k + 1 else k
  }

  function Columns(k: int, count: int, presses: seq<Press>): int
    decreases |presses|
  {
    if presses == [] then k else Columns(ColumnAfter(k, count, presses[0]), count, presses[1..])
  }

  /** The columns a window with count items has: 0 up to count - 1, and just 0 when it is empty. */
  predicate OnWindow(k: int, count: int) {
    0 <= k <= Max(count - 1, 0)
  }

  lemma MulStrict(a: int, b: int, c: int)
    requires c > 0 && a < b
    ensures c * a < c * b
  {
    assert c * b - c * a == c * (b - a);
  }

  /** The position counter follows the column model, one press at a time. */
  lemma PressMovesColumn(k: int, step: int, count: int, p: Press)
    requires step > 0 && OnWindow(k, count)
    ensures After(-(step * k), step, count, p) == -(step * ColumnAfter(k, count, p))
    ensures OnWindow(ColumnAfter(k, count, p), count)
  {
    var pos := -(step * k);
    match p
    case Left =>
      if k > 0 {
        MulStrict(0, k, step);
        assert pos + step == -(step * (k - 1));
      } else {
        assert pos == 0;
      }
    case Right =>
      if k < count - 1 {
        MulStrict(k, count - 1, step);
        assert pos - step == -(step * (k + 1));
      } else if k > count - 1 {
        MulStrict(count - 1, k, step);
      }
  }

  /** Any sequence of presses moves the first item along the column model and keeps it on the window. */
  lemma {:induction false} SlidesFollowColumns(k: int, step: int, count: int, presses: seq<Press>)
    requires step > 0 && OnWindow(k, count)
    ensures Slides(-(step * k), step, count, presses) == -(step * Columns(k, count, presses))
    ensures OnWindow(Columns(k, count, presses), count)
    decreases |presses|
  {
    if presses != [] {
      PressMovesColumn(k, step, count, presses[0]);
      SlidesFollowColumns(ColumnAfter(k, count, presses[0]), step, count, presses[1..]);
    }
  }

  /**
   * From slideBy(0) in the constructor, every sequence of presses leaves the first item at a
   * multiple of step between -(step * (count - 1)) and 0.
   */
  lemma FromStartStaysOnWindow(step: int, count: int, presses: seq<Press>)
    requires step > 0
    ensures Slides(0, step, count, presses) == -(step * Columns(0, count, presses))
    ensures OnWindow(Columns(0, count, presses), count)
  {
    SlidesFollowColumns(0, step, count, presses);
  }

  /** A left press undone by a right press returns to the same column, and the other way round. */
  lemma PressesUndo(k: int, count: int)
    requires OnWindow(k, count)
    ensures k > 0 ==> ColumnAfter(ColumnAfter(k, count, Left), count, Right) == k
    ensures k < count - 1 ==> ColumnAfter(ColumnAfter(k, count, Right), count, Left) == k
  {
  }

  function Rights(k: nat): (r: seq<Press>)
    ensures |r| == k
  {
    if k == 0 then [] else [Right] + Rights(k - 1)
  }

  lemma {:induction false} RightsReach(j: nat, k: nat, count: int)
    requires j + k < count
    ensures Columns(j, count, Rights(k)) == j + k
    decreases k
  {
    if k > 0 {
      assert Rights(k)[0] == Right && Rights(k)[1..] == Rights(k - 1);
      RightsReach(j + 1, k - 1, count);
    }
  }

  /** Every column of a window with count items is reached from the start by k right presses. */
  lemma EveryColumnReachable(k: nat, step: int, count: int)
    requires step > 0 && k < count
    ensures Slides(0, step, count, Rights(k)) == -(step * k)
  {
    RightsReach(0, k, count);
    FromStartStaysOnWindow(step, count, Rights(k));
  }
}
