/**
 * One bar of the timeline: where it is drawn, how a pointer-down is
 * classified, the live feedback while a gesture runs, and what is committed
 * when the pointer is released. Pixels and days are integers; cell widths are
 * positive whole pixels.
 */
module DraggableBar {
  import opened Wrappers
  import opened JsMath

  /** The fields of a project or task that a bar needs. */
  datatype BarItem = BarItem(id: string, name: string, startDate: int, endDate: int)

  datatype DragKind = Move | ResizeLeft | ResizeRight

  /** What a released gesture asks the timeline to do. */
  datatype Commit =
    | UpdateStart(id: string, newStart: int)
    | UpdateDuration(id: string, newStart: int, newEnd: int)

  /** Width in pixels of the grab zone at each end of a bar. */
  const HandleWidth := 8
  /** The rendered width of a bar never drops below this many pixels. */
  const MinRenderedWidth := 50

  // ---------------------------------------------------------------------------
  // Geometry

  /** Horizontal position: calendar days from the window start, times the cell width. */
  function BarLeft(item: BarItem, viewStartDate: int, cellWidth: int): int {
    (item.startDate - viewStartDate) * cellWidth
  }

  /** Both end days are included, so a one-day item is one cell wide. */
  function BarWidth(item: BarItem, cellWidth: int): int {
    (item.endDate - item.startDate + 1) * cellWidth
  }

  /** The bar spans exactly the cells of the days from its start to its end. */
  lemma BarCoversItsDays(item: BarItem, viewStartDate: int, cellWidth: int, day: int)
    requires cellWidth > 0
    ensures var left := BarLeft(item, viewStartDate, cellWidth);
            var cell := (day - viewStartDate) * cellWidth;
            (item.startDate <= day <= item.endDate) <==>
              (left <= cell && cell + cellWidth <= left + BarWidth(item, cellWidth))
  {
    var k := day - item.startDate;
    var n := item.endDate - item.startDate + 1;
    assert (day - viewStartDate) * cellWidth
        == (item.startDate - viewStartDate) * cellWidth + k * cellWidth;
    assert BarWidth(item, cellWidth) == n * cellWidth;
    if item.startDate <= day <= item.endDate {
      assert 0 <= k && k + 1 <= n;
      assert 0 <= k * cellWidth;
      assert (k + 1) * cellWidth <= n * cellWidth;
    } else if day < item.startDate {
      assert k * cellWidth < 0;
    } else {
      assert k + 1 > n;
      assert (k + 1) * cellWidth > n * cellWidth;
    }
  }

  // ---------------------------------------------------------------------------
  // Pointer-down classification

  /**
   * The kind of gesture a pointer-down starts, from its offset inside the
   * bar's rendered rectangle: the left grab zone wins over the right one.
   */
  function DragKindAt(offsetX: int, rectWidth: int): (k: DragKind)
    ensures k == ResizeLeft <==> offsetX < HandleWidth
    ensures k == ResizeRight <==> HandleWidth <= offsetX && offsetX > rectWidth - HandleWidth
    ensures k == Move <==> HandleWidth <= offsetX <= rectWidth - HandleWidth
  {
    if offsetX < HandleWidth then ResizeLeft
    else if offsetX > rectWidth - HandleWidth then ResizeRight
    else Move
  }

  /** A rendered bar is at least 50 pixels wide, so its two grab zones never overlap. */
  lemma GrabZonesDisjoint(offsetX: int, rectWidth: int)
    requires rectWidth >= MinRenderedWidth
    ensures offsetX < HandleWidth ==> !(offsetX > rectWidth - HandleWidth)
  {
  }

  // ---------------------------------------------------------------------------
  // Release: pixels to days, and the commit rule

  /** Whole days a drag of `deltaX` pixels amounts to: the nearest whole number of cells, halves rounded up. */
  function DaysMoved(deltaX: int, cellWidth: int): (r: int)
    requires cellWidth > 0
    ensures -cellWidth <= 2 * (deltaX - r * cellWidth) < cellWidth
  {
    var r := JsRound(deltaX, cellWidth);
    JsRoundIsNearest(deltaX, cellWidth, r);
    r
  }

  /** A drag shorter than half a cell, either way, moves nothing. */
  lemma ShortDragMovesNothing(deltaX: int, cellWidth: int)
    requires cellWidth > 0
    ensures DaysMoved(deltaX, cellWidth) == 0 <==> -cellWidth <= 2 * deltaX < cellWidth
  {
    JsRoundIsNearest(deltaX, cellWidth, 0);
  }

  /**
   * The callback a release invokes, if any. No commit for a zero-day drag; a
   * move always commits the shifted start; a resize commits only when the
   * start stays strictly before the end and a duration handler exists.
   */
  function CommitOnRelease(kind: DragKind, item: BarItem, daysMoved: int, hasDurationHandler: bool)
    : (c: Option<Commit>)
    ensures daysMoved == 0 ==> c == None
    ensures kind == Move && daysMoved != 0 ==> c == Some(UpdateStart(item.id, item.startDate + daysMoved))
    ensures kind != Move && !hasDurationHandler ==> c == None
    ensures kind != Move && c.Some? ==> c.value.UpdateDuration?
    ensures c.Some? && c.value.UpdateDuration? ==>
              && c.value.id == item.id
              && c.value.newStart < c.value.newEnd
              && (kind == ResizeLeft ==>
                    c.value.newStart == item.startDate + daysMoved && c.value.newEnd == item.endDate)
              && (kind == ResizeRight ==>
                    c.value.newStart == item.startDate && c.value.newEnd == item.endDate + daysMoved)
    ensures kind == ResizeLeft && daysMoved != 0 && hasDurationHandler ==>
              (c.Some? <==> item.startDate + daysMoved < item.endDate)
    ensures kind == ResizeRight && daysMoved != 0 && hasDurationHandler ==>
              (c.Some? <==> item.endDate + daysMoved > item.startDate)
  {
    if daysMoved == 0 then None
    else match kind
      case Move => Some(UpdateStart(item.id, item.startDate + daysMoved))
      case ResizeLeft =>
        var newStart := item.startDate + daysMoved;
        if hasDurationHandler && newStart < item.endDate
        then Some(UpdateDuration(item.id, newStart, item.endDate))
        else None
      case ResizeRight =>
        var newEnd := item.endDate + daysMoved;
        if hasDurationHandler && newEnd > item.startDate
        then Some(UpdateDuration(item.id, item.startDate, newEnd))
        else None
  }

  // ---------------------------------------------------------------------------
  // Live feedback

  /** The left edge shown while a gesture runs: a move and a left resize follow the pointer. */
  function VisualLeft(left: int, dragType: Option<DragKind>, dragOffset: int): (r: int)
    ensures dragType == Some(Move) || dragType == Some(ResizeLeft) ==> r - left == dragOffset
    ensures dragType == None || dragType == Some(ResizeRight) ==> r == left
  {
    match dragType
    case Some(Move) => left + dragOffset
    case Some(ResizeLeft) => left + dragOffset
    case _ => left
  }

  /** The width shown while a gesture runs: a resize follows the pointer but never shows less than one cell. */
  function VisualWidth(width: int, dragType: Option<DragKind>, dragOffset: int, cellWidth: int): (w: int)
    ensures dragType == None || dragType == Some(Move) ==> w == width
    ensures dragType == Some(ResizeRight) ==> w >= cellWidth && w >= width + dragOffset
                                              && (w == cellWidth || w == width + dragOffset)
    ensures dragType == Some(ResizeLeft) ==> w >= cellWidth && w >= width - dragOffset
                                             && (w == cellWidth || w == width - dragOffset)
  {
    match dragType
    case Some(ResizeRight) => if width + dragOffset > cellWidth then width + dragOffset else cellWidth
    case Some(ResizeLeft) => if width - dragOffset > cellWidth then width - dragOffset else cellWidth
    case _ => width
  }

  /**
   * What the feedback does to the bar's two edges: a move shifts both by the
   * pointer's offset; a right resize keeps the left edge and, unless the bar
   * would be narrower than a cell, puts the right edge under the pointer; a
   * left resize puts the left edge under the pointer and keeps the right edge
   * unless the bar would be narrower than a cell.
   */
  lemma FeedbackEdges(left: int, width: int, dragOffset: int, cellWidth: int)
    ensures var l, w := VisualLeft(left, Some(Move), dragOffset), VisualWidth(width, Some(Move), dragOffset, cellWidth);
            l == left + dragOffset && l + w == left + width + dragOffset
    ensures var l, w := VisualLeft(left, Some(ResizeRight), dragOffset),
                        VisualWidth(width, Some(ResizeRight), dragOffset, cellWidth);
            && l == left
            && (width + dragOffset >= cellWidth ==> l + w == left + width + dragOffset)
            && (width + dragOffset < cellWidth ==> l + w == left + cellWidth)
    ensures var l, w := VisualLeft(left, Some(ResizeLeft), dragOffset),
                        VisualWidth(width, Some(ResizeLeft), dragOffset, cellWidth);
            && l == left + dragOffset
            && (width - dragOffset >= cellWidth ==> l + w == left + width)
            && (width - dragOffset < cellWidth ==> l + w == left + dragOffset + cellWidth)
  {
  }

  /** The `width` style of the button. */
  function RenderedWidth(visualWidth: int): (w: int)
    ensures w >= MinRenderedWidth
    ensures w == visualWidth || visualWidth < MinRenderedWidth
  {
    if visualWidth > MinRenderedWidth then visualWidth else MinRenderedWidth
  }

  /** Moving the item that a move drag of exactly `d` cells commits puts the bar where the drag showed it. */
  lemma MoveFeedbackMatchesCommit(item: BarItem, viewStartDate: int, cellWidth: int, d: int)
    requires cellWidth > 0 && d != 0
    ensures var c := CommitOnRelease(Move, item, DaysMoved(d * cellWidth, cellWidth), false);
            && c.Some? && c.value.UpdateStart?
            && var moved := item.(startDate := c.value.newStart,
                                  endDate := c.value.newStart + (item.endDate - item.startDate));
            && VisualLeft(BarLeft(item, viewStartDate, cellWidth), Some(Move), d * cellWidth)
               == BarLeft(moved, viewStartDate, cellWidth)
            && BarWidth(moved, cellWidth) == BarWidth(item, cellWidth)
  {
    JsRoundIsNearest(d * cellWidth, cellWidth, d);
    assert (item.startDate + d - viewStartDate) * cellWidth
        == (item.startDate - viewStartDate) * cellWidth + d * cellWidth;
  }

  /** A committed right resize of exactly `d` cells gives the bar the width the drag showed. */
  lemma ResizeRightFeedbackMatchesCommit(item: BarItem, cellWidth: int, d: int)
    requires cellWidth > 0 && d != 0
    requires CommitOnRelease(ResizeRight, item, DaysMoved(d * cellWidth, cellWidth), true).Some?
    ensures var c := CommitOnRelease(ResizeRight, item, DaysMoved(d * cellWidth, cellWidth), true).value;
            VisualWidth(BarWidth(item, cellWidth), Some(ResizeRight), d * cellWidth, cellWidth)
            == BarWidth(item.(startDate := c.newStart, endDate := c.newEnd), cellWidth)
  {
    JsRoundIsNearest(d * cellWidth, cellWidth, d);
    var n := item.endDate + d - item.startDate + 1;
    assert n >= 2;
    assert (item.endDate - item.startDate + 1) * cellWidth + d * cellWidth == n * cellWidth;
    assert n * cellWidth >= 2 * cellWidth;
  }

  /** A committed left resize of exactly `d` cells puts the bar where the drag showed it. */
  lemma ResizeLeftFeedbackMatchesCommit(item: BarItem, viewStartDate: int, cellWidth: int, d: int)
    requires cellWidth > 0 && d != 0
    requires CommitOnRelease(ResizeLeft, item, DaysMoved(d * cellWidth, cellWidth), true).Some?
    ensures var c := CommitOnRelease(ResizeLeft, item, DaysMoved(d * cellWidth, cellWidth), true).value;
            var resized := item.(startDate := c.newStart, endDate := c.newEnd);
            && VisualLeft(BarLeft(item, viewStartDate, cellWidth), Some(ResizeLeft), d * cellWidth)
               == BarLeft(resized, viewStartDate, cellWidth)
            && VisualWidth(BarWidth(item, cellWidth), Some(ResizeLeft), d * cellWidth, cellWidth)
               == BarWidth(resized, cellWidth)
  {
    JsRoundIsNearest(d * cellWidth, cellWidth, d);
    var n := item.endDate - (item.startDate + d) + 1;
    assert n >= 2;
    assert (item.endDate - item.startDate + 1) * cellWidth - d * cellWidth == n * cellWidth;
    assert n * cellWidth >= 2 * cellWidth;
    assert (item.startDate + d - viewStartDate) * cellWidth
        == (item.startDate - viewStartDate) * cellWidth + d * cellWidth;
  }

  // ---------------------------------------------------------------------------
  // The gesture as a state machine: Idle -> Dragging(kind) -> Idle

  class Bar {
    const item: BarItem
    const viewStartDate: int
    const cellWidth: int
    /** Whether the row passed an `onUpdateDuration` handler. */
    const hasDurationHandler: bool

    var isDragging: bool
    var dragOffset: int
    var dragType: Option<DragKind>
    /** The pointer's x at pointer-down, captured by the move and up listeners. */
    var startX: int

    ghost predicate Valid()
      reads this
    {
      && cellWidth > 0
      && isDragging == dragType.Some?
      && (!isDragging ==> dragOffset == 0)
    }

    predicate Idle()
      reads this
    {
      !isDragging && dragOffset == 0 && dragType == None
    }

    constructor (item: BarItem, viewStartDate: int, cellWidth: int, hasDurationHandler: bool)
      requires cellWidth > 0
      ensures Valid() && Idle()
      ensures this.item == item && this.viewStartDate == viewStartDate
      ensures this.cellWidth == cellWidth && this.hasDurationHandler == hasDurationHandler
    {
      this.item := item;
      this.viewStartDate := viewStartDate;
      this.cellWidth := cellWidth;
      this.hasDurationHandler := hasDurationHandler;
      isDragging := false;
      dragOffset := 0;
      dragType := None;
      startX := 0;
    }

    function Left(): int reads this { BarLeft(item, viewStartDate, cellWidth) }
    function Width(): int reads this { BarWidth(item, cellWidth) }

    /** The `left` style: the bar's position plus the live drag feedback. */
    function CurrentLeft(): int
      reads this
    {
      if isDragging then VisualLeft(Left(), dragType, dragOffset) else Left()
    }

    /** The `width` style: the bar's width with live feedback, floored at 50 pixels. */
    function CurrentWidth(): (w: int)
      reads this
      ensures w >= MinRenderedWidth
    {
      RenderedWidth(if isDragging then VisualWidth(Width(), dragType, dragOffset, cellWidth) else Width())
    }

    /**
     * `handlePointerDown`: `offsetX` is the pointer's distance from the
     * rectangle's left edge, `rectWidth` the rectangle's width, `clientX` the
     * pointer's position.
     */
    method PointerDown(offsetX: int, rectWidth: int, clientX: int)
      requires Valid() && Idle()
      modifies this`isDragging, this`dragType, this`startX
      ensures Valid()
      ensures isDragging && dragType == Some(DragKindAt(offsetX, rectWidth))
      ensures startX == clientX
    {
      isDragging := true;
      var kind := if offsetX < HandleWidth then ResizeLeft
                  else if offsetX > rectWidth - HandleWidth then ResizeRight
                  else Move;
      dragType := Some(kind);
      startX := clientX;
    }

    /** The window's pointer-move listener during a gesture. */
    method PointerMove(clientX: int)
      requires Valid() && isDragging
      modifies this`dragOffset
      ensures Valid() && isDragging
      ensures dragOffset == clientX - startX
    {
      dragOffset := clientX - startX;
    }

    /**
     * The window's pointer-up listener: converts the total pixel delta to days,
     * returns the callback invocation it makes (at most one) and always ends
     * the gesture.
     */
    method PointerUp(clientX: int) returns (commit: Option<Commit>)
      requires Valid() && isDragging
      modifies this`isDragging, this`dragOffset, this`dragType
      ensures Valid() && Idle()
      ensures commit == CommitOnRelease(old(dragType).value, item,
                                        DaysMoved(clientX - startX, cellWidth), hasDurationHandler)
    {
      var deltaX := clientX - startX;
      var daysMoved := JsRound(deltaX, cellWidth);
      var kind := dragType.value;
      commit := None;
      if daysMoved != 0 {
        if kind == Move {
          commit := Some(UpdateStart(item.id, item.startDate + daysMoved));
        } else if kind == ResizeLeft && hasDurationHandler {
          var newStartDate := item.startDate + daysMoved;
          if newStartDate < item.endDate {
            commit := Some(UpdateDuration(item.id, newStartDate, item.endDate));
          }
        } else if kind == ResizeRight && hasDurationHandler {
          var newEndDate := item.endDate + daysMoved;
          if newEndDate > item.startDate {
            commit := Some(UpdateDuration(item.id, item.startDate, newEndDate));
          }
        }
      }
      isDragging := false;
      dragOffset := 0;
      dragType := None;
    }
  }

  // ---------------------------------------------------------------------------
  // Worked cases

  /** With 60-pixel cells an 85-pixel drag is one day and a 25-pixel drag is none. */
  lemma RoundingExamples()
    ensures DaysMoved(85, 60) == 1
    ensures DaysMoved(25, 60) == 0
    ensures DaysMoved(30, 60) == 1 && DaysMoved(-30, 60) == 0
  {
  }

  /** A left resize that would put the start after the end commits nothing. */
  lemma ResizeLeftPastEndRejected()
    ensures CommitOnRelease(ResizeLeft, BarItem("p", "P", 10, 15), 6, true) == None
    ensures CommitOnRelease(ResizeLeft, BarItem("p", "P", 10, 15), 5, true) == None
    ensures CommitOnRelease(ResizeLeft, BarItem("p", "P", 10, 15), 4, true)
            == Some(UpdateDuration("p", 14, 15))
  {
  }

  /** A full gesture on a fresh bar: grab the middle, drag 130 pixels right, release. */
  method MoveGestureExample() returns (c: Option<Commit>)
    ensures c == Some(UpdateStart("p", 12))
  {
    var bar := new Bar(BarItem("p", "P", 10, 14), 0, 60, true);
    bar.PointerDown(100, bar.CurrentWidth(), 500);
    bar.PointerMove(560);
    assert bar.CurrentLeft() == 10 * 60 + 60;
    c := bar.PointerUp(630);
    assert bar.Idle();
  }
}
