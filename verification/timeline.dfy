/**
 * The Gantt-style timeline: the view window (mode, zoom, start day), the
 * expand/collapse set, the date updates that bar gestures and the edit
 * dialog commit, and the dialog itself. Days are integers, day 0 being
 * 1970-01-01 (a Thursday); zoom is counted in quarters, so 4 means 100%.
 */
module Timeline {
  import opened Wrappers
  import opened Text
  import opened ProjectData
  import opened DraggableBar

  datatype ViewMode = Day | Week | Month | Quarter
  datatype Direction = Prev | Next

  /** The demo's fixed "today", 2024-01-23. */
  const FixedToday := 19745

  /** Zoom limits in quarters: 50% and 200%. */
  const MinZoom := 2
  const MaxZoom := 8
  const DefaultZoom := 4

  // ---------------------------------------------------------------------------
  // The view window

  /** Day of the week, Monday being 0. */
  function Weekday(day: int): (w: int)
    ensures 0 <= w < 7
  {
    (day + 3) % 7
  }

  /** `startOfWeek(day, { weekStartsOn: 1 })`: the Monday on or before `day`. */
  function StartOfWeek(day: int): (r: int)
    ensures Weekday(r) == 0
    ensures day - 7 < r <= day
  {
    day - Weekday(day)
  }

  /** The window opens on the Monday of the week before today. */
  const InitialViewStart := StartOfWeek(FixedToday - 7)

  /** Columns in the window: three weeks of days, or two, three or four months of days. */
  function DaysToRender(mode: ViewMode): (n: nat)
    ensures 21 <= n <= 120
  {
    match mode
    case Day => 21
    case Week => 60
    case Month => 90
    case Quarter => 120
  }

  /** Cell width at 100% zoom; a multiple of four, so every quarter zoom step is a whole pixel. */
  function BaseCellWidth(mode: ViewMode): (w: nat)
    ensures w > 0 && w % 4 == 0
  {
    match mode
    case Day => 140
    case Week => 60
    case Month => 40
    case Quarter => 20
  }

  /** `baseCellWidth * zoom`: every base width is a multiple of four, so the product is whole. */
  function CellWidth(mode: ViewMode, zoom: int): (w: int)
    requires MinZoom <= zoom <= MaxZoom
    ensures 4 * w == BaseCellWidth(mode) * zoom
    ensures BaseCellWidth(mode) / 2 <= w <= 2 * BaseCellWidth(mode)
  {
    BaseCellWidth(mode) / 4 * zoom
  }

  /** The dates of the window, one per column: consecutive days from the window start. */
  function GetDates(viewStartDate: int, mode: ViewMode): (dates: seq<int>)
    ensures |dates| == DaysToRender(mode) && dates[0] == viewStartDate
    ensures forall i :: 0 < i < |dates| ==> dates[i] == dates[i - 1] + 1
  {
    seq(DaysToRender(mode), i => viewStartDate + i)
  }

  /** A day is a column of the window exactly when its offset from the window start is in range, and that column is the day. */
  lemma GridMappingInverse(viewStartDate: int, mode: ViewMode, day: int)
    ensures var dates := GetDates(viewStartDate, mode);
            && |dates| == DaysToRender(mode)
            && (day in dates <==> 0 <= day - viewStartDate < |dates|)
            && (day in dates ==> dates[day - viewStartDate] == day)
  {
    var dates := GetDates(viewStartDate, mode);
    if 0 <= day - viewStartDate < |dates| {
      assert dates[day - viewStartDate] == day;
    }
  }

  /** The grid's width: one cell per rendered day. */
  function TimelineWidth(mode: ViewMode, zoom: int): (w: int)
    requires MinZoom <= zoom <= MaxZoom
    ensures w == DaysToRender(mode) * CellWidth(mode, zoom)
    ensures 4 * w == DaysToRender(mode) * BaseCellWidth(mode) * zoom
  {
    |GetDates(0, mode)| * CellWidth(mode, zoom)
  }

  /** The today marker's column, or none when today lies outside the window. */
  function TodayOffset(today: int, viewStartDate: int, dateCount: nat): (r: Option<nat>)
    ensures r.Some? <==> viewStartDate <= today < viewStartDate + dateCount
    ensures r.Some? ==> viewStartDate + r.value == today
  {
    var diff := today - viewStartDate;
    if diff >= 0 && diff < dateCount then Some(diff) else None
  }

  /** The marker, when present, sits on the column of today's date. */
  lemma TodayMarkerOnItsColumn(today: int, viewStartDate: int, mode: ViewMode)
    ensures var dates := GetDates(viewStartDate, mode);
            var r := TodayOffset(today, viewStartDate, |dates|);
            && (r.Some? ==> r.value < |dates| && dates[r.value] == today)
            && (r.None? ==> today !in dates)
  {
    GridMappingInverse(viewStartDate, mode, today);
  }

  /** Weeks one press of the navigation buttons moves. */
  function WeeksStep(mode: ViewMode): (n: nat)
    ensures n >= 1
  {
    match mode
    case Quarter => 12
    case Month => 4
    case _ => 1
  }

  /** `navigateTime`: the window start moves a whole number of weeks. */
  function Navigate(viewStartDate: int, mode: ViewMode, dir: Direction): (r: int)
    ensures dir == Next ==> r - viewStartDate == 7 * WeeksStep(mode)
    ensures dir == Prev ==> viewStartDate - r == 7 * WeeksStep(mode)
    ensures Weekday(r) == Weekday(viewStartDate)
  {
    if dir == Next then viewStartDate + 7 * WeeksStep(mode) else viewStartDate - 7 * WeeksStep(mode)
  }

  /** One navigation step is shorter than the window, so the new window shares days with the old one. */
  lemma NavigationOverlapsWindow(viewStartDate: int, mode: ViewMode, dir: Direction)
    ensures var next := GetDates(Navigate(viewStartDate, mode, dir), mode);
            var dates := GetDates(viewStartDate, mode);
            exists d :: d in dates && d in next
  {
    var r := Navigate(viewStartDate, mode, dir);
    var d := if dir == Next then r else viewStartDate;
    GridMappingInverse(viewStartDate, mode, d);
    GridMappingInverse(r, mode, d);
  }

  lemma NavigateBackAndForth(viewStartDate: int, mode: ViewMode)
    ensures Navigate(Navigate(viewStartDate, mode, Prev), mode, Next) == viewStartDate
    ensures Navigate(Navigate(viewStartDate, mode, Next), mode, Prev) == viewStartDate
  {
  }

  /** The zoom-in button: one quarter more, capped at 200%. */
  function ZoomIn(zoom: int): (r: int)
    ensures r <= MaxZoom && (MinZoom <= zoom ==> MinZoom <= r)
    ensures zoom < MaxZoom ==> r == zoom + 1
    ensures zoom >= MaxZoom ==> r == MaxZoom
  {
    if zoom + 1 < MaxZoom then zoom + 1 else MaxZoom
  }

  /** The zoom-out button: one quarter less, floored at 50%. */
  function ZoomOut(zoom: int): (r: int)
    ensures MinZoom <= r && (zoom <= MaxZoom ==> r <= MaxZoom)
    ensures zoom > MinZoom ==> r == zoom - 1
    ensures zoom <= MinZoom ==> r == MinZoom
  {
    if zoom - 1 > MinZoom then zoom - 1 else MinZoom
  }

  /** Zoom after a run of button presses, `true` for zoom-in. */
  function ZoomAfter(zoom: int, presses: seq<bool>): int
    decreases |presses|
  {
    if presses == [] then zoom
    else ZoomAfter(if presses[0] then ZoomIn(zoom) else ZoomOut(zoom), presses[1..])
  }

  /** No run of zoom presses leaves the range from 50% to 200%. */
  lemma {:induction false} ZoomStaysInRange(zoom: int, presses: seq<bool>)
    requires MinZoom <= zoom <= MaxZoom
    ensures MinZoom <= ZoomAfter(zoom, presses) <= MaxZoom
    decreases |presses|
  {
    if presses != [] {
      ZoomStaysInRange(if presses[0] then ZoomIn(zoom) else ZoomOut(zoom), presses[1..]);
    }
  }

  // ---------------------------------------------------------------------------
  // Date updates on the project list

  /** `handleUpdateProject`: matching projects start at `newStart` and keep their length. */
  function MoveProject(ps: seq<Project>, id: string, newStart: int): (r: seq<Project>)
    ensures |r| == |ps|
    ensures forall i :: 0 <= i < |ps| && ps[i].id != id ==> r[i] == ps[i]
    ensures forall i :: 0 <= i < |ps| && ps[i].id == id ==>
              && r[i].startDate == newStart
              && r[i].endDate - r[i].startDate == ps[i].endDate - ps[i].startDate
              && r[i].(startDate := ps[i].startDate, endDate := ps[i].endDate) == ps[i]
  {
    seq(|ps|, i requires 0 <= i < |ps| =>
      if ps[i].id != id then ps[i]
      else ps[i].(endDate := newStart + (ps[i].endDate - ps[i].startDate), startDate := newStart))
  }

  /** `handleUpdateProjectDuration`: matching projects get exactly the two dates given. */
  function ResizeProject(ps: seq<Project>, id: string, newStart: int, newEnd: int): (r: seq<Project>)
    ensures |r| == |ps|
    ensures forall i :: 0 <= i < |ps| && ps[i].id != id ==> r[i] == ps[i]
    ensures forall i :: 0 <= i < |ps| && ps[i].id == id ==>
              r[i] == ps[i].(startDate := newStart, endDate := newEnd)
  {
    seq(|ps|, i requires 0 <= i < |ps| =>
      if ps[i].id != id then ps[i] else ps[i].(endDate := newEnd, startDate := newStart))
  }

  function MoveTaskIn(ts: seq<Task>, id: string, newStart: int): (r: seq<Task>)
    ensures |r| == |ts|
    ensures forall i :: 0 <= i < |ts| && ts[i].id != id ==> r[i] == ts[i]
    ensures forall i :: 0 <= i < |ts| && ts[i].id == id ==>
              && r[i].startDate == newStart
              && r[i].endDate - r[i].startDate == ts[i].endDate - ts[i].startDate
              && r[i].(startDate := ts[i].startDate, endDate := ts[i].endDate) == ts[i]
  {
    seq(|ts|, i requires 0 <= i < |ts| =>
      if ts[i].id != id then ts[i]
      else ts[i].(endDate := newStart + (ts[i].endDate - ts[i].startDate), startDate := newStart))
  }

  function ResizeTaskIn(ts: seq<Task>, id: string, newStart: int, newEnd: int): (r: seq<Task>)
    ensures |r| == |ts|
    ensures forall i :: 0 <= i < |ts| && ts[i].id != id ==> r[i] == ts[i]
    ensures forall i :: 0 <= i < |ts| && ts[i].id == id ==>
              r[i] == ts[i].(startDate := newStart, endDate := newEnd)
  {
    seq(|ts|, i requires 0 <= i < |ts| =>
      if ts[i].id != id then ts[i] else ts[i].(endDate := newEnd, startDate := newStart))
  }

  /** `handleUpdateTask`: only the tasks of the matching project change. */
  function MoveTask(ps: seq<Project>, projectId: string, taskId: string, newStart: int): (r: seq<Project>)
    ensures |r| == |ps|
    ensures forall i :: 0 <= i < |ps| && ps[i].id != projectId ==> r[i] == ps[i]
    ensures forall i :: 0 <= i < |ps| && ps[i].id == projectId ==>
              r[i] == ps[i].(tasks := MoveTaskIn(ps[i].tasks, taskId, newStart))
  {
    seq(|ps|, i requires 0 <= i < |ps| =>
      if ps[i].id != projectId then ps[i]
      else ps[i].(tasks := MoveTaskIn(ps[i].tasks, taskId, newStart)))
  }

  /** `handleUpdateTaskDuration`. */
  function ResizeTask(ps: seq<Project>, projectId: string, taskId: string, newStart: int, newEnd: int)
    : (r: seq<Project>)
    ensures |r| == |ps|
    ensures forall i :: 0 <= i < |ps| && ps[i].id != projectId ==> r[i] == ps[i]
    ensures forall i :: 0 <= i < |ps| && ps[i].id == projectId ==>
              r[i] == ps[i].(tasks := ResizeTaskIn(ps[i].tasks, taskId, newStart, newEnd))
  {
    seq(|ps|, i requires 0 <= i < |ps| =>
      if ps[i].id != projectId then ps[i]
      else ps[i].(tasks := ResizeTaskIn(ps[i].tasks, taskId, newStart, newEnd)))
  }

  // ---------------------------------------------------------------------------
  // Bars wired to the handlers

  function ProjectBar(p: Project): BarItem {
    BarItem(p.id, p.name, p.startDate, p.endDate)
  }

  function TaskBar(t: Task): BarItem {
    BarItem(t.id, t.name, t.startDate, t.endDate)
  }

  /** What a project row does with its bar's commit. */
  function ApplyProjectCommit(ps: seq<Project>, c: Commit): seq<Project> {
    match c
    case UpdateStart(id, s) => MoveProject(ps, id, s)
    case UpdateDuration(id, s, e) => ResizeProject(ps, id, s, e)
  }

  /** What a task row of project `projectId` does with its bar's commit. */
  function ApplyTaskCommit(ps: seq<Project>, projectId: string, c: Commit): seq<Project> {
    match c
    case UpdateStart(id, s) => MoveTask(ps, projectId, id, s)
    case UpdateDuration(id, s, e) => ResizeTask(ps, projectId, id, s, e)
  }

  /**
   * A released gesture on a project's bar either changes nothing or, for that
   * project, keeps the length of a move and leaves a resized project starting
   * strictly before it ends.
   */
  lemma ProjectGestureOutcome(ps: seq<Project>, i: nat, kind: DragKind, daysMoved: int)
    requires i < |ps|
    ensures var c := CommitOnRelease(kind, ProjectBar(ps[i]), daysMoved, true);
            && (c.None? <==> daysMoved == 0 || (kind == ResizeLeft && ps[i].startDate + daysMoved >= ps[i].endDate)
                                              || (kind == ResizeRight && ps[i].endDate + daysMoved <= ps[i].startDate))
            && (c.Some? ==>
                  var r := ApplyProjectCommit(ps, c.value);
                  && |r| == |ps|
                  && (kind == Move ==>
                        r[i].startDate == ps[i].startDate + daysMoved
                        && r[i].endDate - r[i].startDate == ps[i].endDate - ps[i].startDate)
                  && (kind != Move ==> r[i].startDate < r[i].endDate))
  {
  }

  /** The same for a task's bar: the task's dates change as the gesture says, other tasks do not. */
  lemma TaskGestureOutcome(ps: seq<Project>, i: nat, j: nat, kind: DragKind, daysMoved: int)
    requires i < |ps| && j < |ps[i].tasks|
    ensures var t := ps[i].tasks[j];
            var c := CommitOnRelease(kind, TaskBar(t), daysMoved, true);
            c.Some? ==>
              var r := ApplyTaskCommit(ps, ps[i].id, c.value);
              && |r| == |ps| && |r[i].tasks| == |ps[i].tasks|
              && (kind == Move ==>
                    r[i].tasks[j].startDate == t.startDate + daysMoved
                    && r[i].tasks[j].endDate - r[i].tasks[j].startDate == t.endDate - t.startDate)
              && (kind != Move ==> r[i].tasks[j].startDate < r[i].tasks[j].endDate)
              && (forall k :: 0 <= k < |ps[i].tasks| && ps[i].tasks[k].id != t.id ==>
                    r[i].tasks[k] == ps[i].tasks[k])
  {
  }

  // ---------------------------------------------------------------------------
  // Expand/collapse

  /** `prev.filter((id) => id !== x)`. */
  function Without(xs: seq<string>, x: string): (r: seq<string>)
    ensures forall y :: y in r <==> y in xs && y != x
    ensures |r| <= |xs|
  {
    if xs == [] then []
    else if xs[0] == x then Without(xs[1..], x)
    else [xs[0]] + Without(xs[1..], x)
  }

  lemma {:induction false} WithoutAbsent(xs: seq<string>, x: string)
    requires x !in xs
    ensures Without(xs, x) == xs
  {
    if xs != [] {
      WithoutAbsent(xs[1..], x);
    }
  }

  lemma {:induction false} WithoutAppended(xs: seq<string>, x: string)
    requires x !in xs
    ensures Without(xs + [x], x) == xs
  {
    if xs == [] {
      assert [x][1..] == [];
    } else {
      assert (xs + [x])[1..] == xs[1..] + [x];
      WithoutAppended(xs[1..], x);
    }
  }

  /** `toggleProject`: an expanded project collapses, a collapsed one expands. */
  function ToggleExpanded(expanded: seq<string>, id: string): (r: seq<string>)
    ensures id in r <==> id !in expanded
    ensures forall y :: y != id ==> (y in r <==> y in expanded)
  {
    if id in expanded then Without(expanded, id) else expanded + [id]
  }

  /** Toggling twice restores which projects are expanded, and restores the list itself when the project started collapsed. */
  lemma ToggleTwice(expanded: seq<string>, id: string)
    ensures forall y :: y in ToggleExpanded(ToggleExpanded(expanded, id), id) <==> y in expanded
    ensures id !in expanded ==> ToggleExpanded(ToggleExpanded(expanded, id), id) == expanded
  {
    if id !in expanded {
      WithoutAppended(expanded, id);
    }
  }

  function Ids(ps: seq<Project>): (r: seq<string>)
    ensures |r| == |ps| && forall i :: 0 <= i < |ps| ==> r[i] == ps[i].id
  {
    seq(|ps|, i requires 0 <= i < |ps| => ps[i].id)
  }

  // ---------------------------------------------------------------------------
  // Edit dialog

  datatype ItemKind = ProjectItem | TaskItem

  datatype EditDialog = EditDialog(
    isOpen: bool,
    kind: Option<ItemKind>,
    projectId: Option<string>,
    taskId: Option<string>)

  const ClosedDialog := EditDialog(false, None, None, None)

  /** `projects.find((p) => p.id === id)`: the first project with that id. */
  function FindProject(ps: seq<Project>, id: string): (r: Option<Project>)
    ensures r.None? <==> forall i :: 0 <= i < |ps| ==> ps[i].id != id
    ensures r.Some? ==> exists i :: 0 <= i < |ps| && ps[i] == r.value && ps[i].id == id &&
                          forall j :: 0 <= j < i ==> ps[j].id != id
  {
    if ps == [] then None
    else if ps[0].id == id then Some(ps[0])
    else
      var r := FindProject(ps[1..], id);
      assert r.None? ==> forall i :: 1 <= i < |ps| ==> ps[1..][i - 1] == ps[i];
      if r.Some? then
        var k :| 0 <= k < |ps[1..]| && ps[1..][k] == r.value && ps[1..][k].id == id &&
                 forall j :: 0 <= j < k ==> ps[1..][j].id != id;
        assert ps[k + 1] == r.value && forall j :: 0 <= j < k + 1 ==> ps[j].id != id;
        r
      else r
  }

  /** `tasks.find((t) => t.id === taskId)`: the first task with that id. */
  function FindTask(ts: seq<Task>, id: string): (r: Option<Task>)
    ensures r.None? <==> forall i :: 0 <= i < |ts| ==> ts[i].id != id
    ensures r.Some? ==> exists i :: 0 <= i < |ts| && ts[i] == r.value && ts[i].id == id &&
                          forall j :: 0 <= j < i ==> ts[j].id != id
  {
    if ts == [] then None
    else if ts[0].id == id then Some(ts[0])
    else
      var r := FindTask(ts[1..], id);
      assert r.None? ==> forall i :: 1 <= i < |ts| ==> ts[1..][i - 1] == ts[i];
      if r.Some? then
        var k :| 0 <= k < |ts[1..]| && ts[1..][k] == r.value && ts[1..][k].id == id &&
                 forall j :: 0 <= j < k ==> ts[1..][j].id != id;
        assert ts[k + 1] == r.value && forall j :: 0 <= j < k + 1 ==> ts[j].id != id;
        r
      else r
  }

  /** Project `k` is the first in the list with that id. */
  predicate FirstWithId(ps: seq<Project>, k: int, id: string) {
    0 <= k < |ps| && ps[k].id == id && forall j :: 0 <= j < k ==> ps[j].id != id
  }

  /** Task `i` is the first in the list with that id. */
  predicate FirstTaskWithId(ts: seq<Task>, i: int, id: string) {
    0 <= i < |ts| && ts[i].id == id && forall j :: 0 <= j < i ==> ts[j].id != id
  }

  /**
   * The item a double-click on a bar edits, if it still exists: the first
   * project with the id, or the first task with the task id inside that
   * project (a task of a later project with the same id is never looked at).
   */
  function EditTarget(ps: seq<Project>, kind: ItemKind, projectId: string, taskId: Option<string>)
    : (r: Option<(int, int)>)
    ensures kind == ProjectItem ==> (r.None? <==> forall i :: 0 <= i < |ps| ==> ps[i].id != projectId)
    ensures kind == ProjectItem && r.Some? ==>
              exists k :: FirstWithId(ps, k, projectId) && r.value == (ps[k].startDate, ps[k].endDate)
    ensures kind == TaskItem && taskId.None? ==> r.None?
    ensures kind == TaskItem && taskId.Some? ==>
              (r.Some? <==> exists k :: FirstWithId(ps, k, projectId) &&
                                        exists i :: 0 <= i < |ps[k].tasks| && ps[k].tasks[i].id == taskId.value)
    ensures kind == TaskItem && taskId.Some? && r.Some? ==>
              exists k, i :: FirstWithId(ps, k, projectId) && FirstTaskWithId(ps[k].tasks, i, taskId.value)
                             && r.value == (ps[k].tasks[i].startDate, ps[k].tasks[i].endDate)
  {
    var p := FindProject(ps, projectId);
    if p.None? then
      assert forall k :: !FirstWithId(ps, k, projectId);
      None
    else
      var k :| FirstWithId(ps, k, projectId) && ps[k] == p.value;
      assert forall k' :: FirstWithId(ps, k', projectId) ==> k' == k;
      if kind == ProjectItem then Some((p.value.startDate, p.value.endDate))
      else if taskId.None? then None
      else
        var t := FindTask(p.value.tasks, taskId.value);
        if t.None? then None
        else
          var i :| FirstTaskWithId(ps[k].tasks, i, taskId.value) && ps[k].tasks[i] == t.value;
          Some((t.value.startDate, t.value.endDate))
  }

  /** The projects after a save whose two dates both parsed: no order check between them. */
  function SavedEdit(ps: seq<Project>, dialog: EditDialog, newStart: int, newEnd: int): (r: seq<Project>)
    ensures |r| == |ps|
    ensures forall i :: 0 <= i < |ps| && dialog.projectId != Some(ps[i].id) ==> r[i] == ps[i]
    ensures dialog.kind == Some(ProjectItem) && Truthy(dialog.projectId) ==>
              forall i :: 0 <= i < |ps| && dialog.projectId == Some(ps[i].id) ==>
                r[i] == ps[i].(startDate := newStart, endDate := newEnd)
    ensures dialog.kind == Some(TaskItem) && Truthy(dialog.projectId) && Truthy(dialog.taskId) ==>
              forall i :: 0 <= i < |ps| && dialog.projectId == Some(ps[i].id) ==>
                r[i] == ps[i].(tasks := ResizeTaskIn(ps[i].tasks, dialog.taskId.value, newStart, newEnd))
    ensures dialog.kind == Some(TaskItem) && !(Truthy(dialog.projectId) && Truthy(dialog.taskId)) ==> r == ps
    ensures dialog.kind.None? || !Truthy(dialog.projectId) ==> r == ps
  {
    if dialog.kind == Some(ProjectItem) && Truthy(dialog.projectId) then
      ResizeProject(ps, dialog.projectId.value, newStart, newEnd)
    else if dialog.kind == Some(TaskItem) && Truthy(dialog.projectId) && Truthy(dialog.taskId) then
      ResizeTask(ps, dialog.projectId.value, dialog.taskId.value, newStart, newEnd)
    else ps
  }

  /** Unlike a resize gesture, a save writes an end before the start as it is. */
  lemma SaveAcceptsInvertedDates()
    ensures var p := Project("a", "A", 0, 0, 10, 15, Active, High, [], [], None, None, None, []);
            var r := SavedEdit([p], EditDialog(true, Some(ProjectItem), Some("a"), None), 20, 12);
            r[0].startDate == 20 && r[0].endDate == 12
    ensures CommitOnRelease(ResizeLeft, BarItem("a", "A", 10, 15), 10, true) == None
  {
  }

  predicate UniqueIds(ps: seq<Project>) {
    forall i, j :: 0 <= i < j < |ps| ==> ps[i].id != ps[j].id
  }

  /**
   * Opening a project's dialog and saving the text it showed leaves the
   * projects as they were, provided reading a date back from the text that
   * `format` wrote for it gives the same day.
   */
  lemma SaveUnchangedProjectDates(ps: seq<Project>, id: string, format: int -> string, parse: string -> Option<int>)
    requires UniqueIds(ps) && id != ""
    requires EditTarget(ps, ProjectItem, id, None).Some?
    requires forall d :: parse(format(d)) == Some(d)
    ensures var d := EditTarget(ps, ProjectItem, id, None).value;
            var s, e := parse(format(d.0)), parse(format(d.1));
            && s.Some? && e.Some?
            && SavedEdit(ps, EditDialog(true, Some(ProjectItem), Some(id), None), s.value, e.value) == ps
  {
    var d := EditTarget(ps, ProjectItem, id, None).value;
    var k :| 0 <= k < |ps| && ps[k].id == id && d == (ps[k].startDate, ps[k].endDate);
    var s, e := parse(format(d.0)), parse(format(d.1));
    assert s == Some(ps[k].startDate) && e == Some(ps[k].endDate);
    SaveOwnDates(ps, k, id, 0, s.value, e.value);
    ShiftByZero(ps, id);
  }

  /**
   * When reading the text back lands `shift` days away from the day written
   * (`new Date('yyyy-MM-dd')` reads the text as midnight UTC, one day early
   * west of UTC), an unchanged save moves the project by that many days.
   */
  lemma SaveUnchangedShiftsDates(ps: seq<Project>, id: string, format: int -> string, parse: string -> Option<int>,
                                 shift: int)
    requires UniqueIds(ps) && id != ""
    requires EditTarget(ps, ProjectItem, id, None).Some?
    requires forall d :: parse(format(d)) == Some(d + shift)
    ensures var d := EditTarget(ps, ProjectItem, id, None).value;
            var s, e := parse(format(d.0)), parse(format(d.1));
            && s.Some? && e.Some?
            && SavedEdit(ps, EditDialog(true, Some(ProjectItem), Some(id), None), s.value, e.value)
               == ShiftProject(ps, id, shift)
  {
    var d := EditTarget(ps, ProjectItem, id, None).value;
    var k :| 0 <= k < |ps| && ps[k].id == id && d == (ps[k].startDate, ps[k].endDate);
    var s, e := parse(format(d.0)), parse(format(d.1));
    assert s == Some(ps[k].startDate + shift) && e == Some(ps[k].endDate + shift);
    SaveOwnDates(ps, k, id, shift, s.value, e.value);
  }

  /** The projects with that id moved by `shift` days, the others as they were. */
  function ShiftProject(ps: seq<Project>, id: string, shift: int): (r: seq<Project>)
    ensures |r| == |ps|
    ensures forall i :: 0 <= i < |ps| ==>
              r[i] == if ps[i].id == id then ps[i].(startDate := ps[i].startDate + shift, endDate := ps[i].endDate + shift)
                      else ps[i]
  {
    seq(|ps|, i requires 0 <= i < |ps| =>
      if ps[i].id == id then ps[i].(startDate := ps[i].startDate + shift, endDate := ps[i].endDate + shift) else ps[i])
  }

  /** With unique ids, saving project `k`'s own dates moved by `shift` shifts that project alone. */
  lemma SaveOwnDates(ps: seq<Project>, k: nat, id: string, shift: int, newStart: int, newEnd: int)
    requires UniqueIds(ps) && k < |ps| && ps[k].id == id && id != ""
    requires newStart == ps[k].startDate + shift && newEnd == ps[k].endDate + shift
    ensures SavedEdit(ps, EditDialog(true, Some(ProjectItem), Some(id), None), newStart, newEnd)
            == ShiftProject(ps, id, shift)
  {
    SavedProjectEdit(ps, id, newStart, newEnd);
    ResizeToOwnDates(ps, k, shift);
  }

  /** A save from a project's dialog is a resize of the projects with that id. */
  lemma SavedProjectEdit(ps: seq<Project>, id: string, newStart: int, newEnd: int)
    requires id != ""
    ensures SavedEdit(ps, EditDialog(true, Some(ProjectItem), Some(id), None), newStart, newEnd)
            == ResizeProject(ps, id, newStart, newEnd)
  {
  }

  /**
   * A save from a task's dialog gives every task with the task id, in every
   * project with the project id, both dates; all other tasks and projects stay.
   */
  lemma SavedTaskEdit(ps: seq<Project>, projectId: string, taskId: string, newStart: int, newEnd: int,
                      i: nat, j: nat)
    requires projectId != "" && taskId != ""
    requires i < |ps| && j < |ps[i].tasks|
    ensures var r := SavedEdit(ps, EditDialog(true, Some(TaskItem), Some(projectId), Some(taskId)), newStart, newEnd);
            && |r| == |ps| && |r[i].tasks| == |ps[i].tasks|
            && r[i].(tasks := ps[i].tasks) == ps[i]
            && r[i].tasks[j] == if ps[i].id == projectId && ps[i].tasks[j].id == taskId
                                then ps[i].tasks[j].(startDate := newStart, endDate := newEnd)
                                else ps[i].tasks[j]
  {
  }

  /** With unique ids, resizing to the dates of project `k` moved by `shift` shifts exactly that project. */
  lemma ResizeToOwnDates(ps: seq<Project>, k: nat, shift: int)
    requires UniqueIds(ps) && k < |ps|
    ensures ResizeProject(ps, ps[k].id, ps[k].startDate + shift, ps[k].endDate + shift) == ShiftProject(ps, ps[k].id, shift)
  {
    forall i | 0 <= i < |ps| && ps[i].id == ps[k].id
      ensures i == k
    {
    }
  }

  /** Shifting by zero days changes nothing. */
  lemma ShiftByZero(ps: seq<Project>, id: string)
    ensures ShiftProject(ps, id, 0) == ps
  {
  }

  // ---------------------------------------------------------------------------
  // The component's state

  class ProjectTimeline {
    var projects: seq<Project>
    var expandedProjects: seq<string>
    var viewMode: ViewMode
    var zoom: int
    var editDialog: EditDialog
    var editStartDate: string
    var editEndDate: string
    var viewStartDate: int

    ghost predicate Valid()
      reads this
    {
      MinZoom <= zoom <= MaxZoom
    }

    /** Starts in week mode at 100%, every project expanded, the window on the week before today. */
    constructor (initial: seq<Project>)
      ensures Valid()
      ensures projects == initial && expandedProjects == Ids(initial)
      ensures forall p :: p in initial ==> p.id in expandedProjects
      ensures viewMode == Week && zoom == DefaultZoom && viewStartDate == InitialViewStart
      ensures editDialog == ClosedDialog && editStartDate == "" && editEndDate == ""
    {
      projects := initial;
      expandedProjects := Ids(initial);
      viewMode := Week;
      zoom := DefaultZoom;
      editDialog := ClosedDialog;
      editStartDate := "";
      editEndDate := "";
      viewStartDate := InitialViewStart;
    }

    function Dates(): seq<int> reads this { GetDates(viewStartDate, viewMode) }

    function CurrentCellWidth(): int
      reads this
      requires Valid()
    {
      CellWidth(viewMode, zoom)
    }

    function TodayOffsetDays(): Option<nat> reads this {
      TodayOffset(FixedToday, viewStartDate, |Dates()|)
    }

    /** A new list from the parent replaces the local one; the expanded set is kept. */
    method ReceiveProjects(ps: seq<Project>)
      modifies this`projects
      ensures projects == ps
    {
      projects := ps;
    }

    method ToggleProject(id: string)
      modifies this`expandedProjects
      ensures expandedProjects == ToggleExpanded(old(expandedProjects), id)
    {
      if id in expandedProjects {
        expandedProjects := Without(expandedProjects, id);
      } else {
        expandedProjects := expandedProjects + [id];
      }
    }

    method GoToToday()
      modifies this`viewStartDate
      ensures viewStartDate == InitialViewStart
    {
      viewStartDate := InitialViewStart;
    }

    method NavigateTime(dir: Direction)
      modifies this`viewStartDate
      ensures viewStartDate == Navigate(old(viewStartDate), viewMode, dir)
    {
      viewStartDate := Navigate(viewStartDate, viewMode, dir);
    }

    method SetViewMode(mode: ViewMode)
      modifies this`viewMode
      ensures viewMode == mode
    {
      viewMode := mode;
    }

    method ZoomInPressed()
      requires Valid()
      modifies this`zoom
      ensures Valid() && zoom == ZoomIn(old(zoom))
    {
      zoom := ZoomIn(zoom);
    }

    method ZoomOutPressed()
      requires Valid()
      modifies this`zoom
      ensures Valid() && zoom == ZoomOut(old(zoom))
    {
      zoom := ZoomOut(zoom);
    }

    method HandleUpdateProject(id: string, newStart: int)
      modifies this`projects
      ensures projects == MoveProject(old(projects), id, newStart)
    {
      projects := MoveProject(projects, id, newStart);
    }

    method HandleUpdateProjectDuration(id: string, newStart: int, newEnd: int)
      modifies this`projects
      ensures projects == ResizeProject(old(projects), id, newStart, newEnd)
    {
      projects := ResizeProject(projects, id, newStart, newEnd);
    }

    method HandleUpdateTask(projectId: string, taskId: string, newStart: int)
      modifies this`projects
      ensures projects == MoveTask(old(projects), projectId, taskId, newStart)
    {
      projects := MoveTask(projects, projectId, taskId, newStart);
    }

    method HandleUpdateTaskDuration(projectId: string, taskId: string, newStart: int, newEnd: int)
      modifies this`projects
      ensures projects == ResizeTask(old(projects), projectId, taskId, newStart, newEnd)
    {
      projects := ResizeTask(projects, projectId, taskId, newStart, newEnd);
    }

    /** A double-click on a bar opens the dialog on that item's dates, rendered by `format`. */
    method HandleDoubleClick(kind: ItemKind, projectId: string, taskId: Option<string>, format: int -> string)
      modifies this`editDialog, this`editStartDate, this`editEndDate
      ensures var target := EditTarget(projects, kind, projectId, taskId);
              if target.Some? then
                && editDialog == EditDialog(true, Some(kind), Some(projectId), taskId)
                && editStartDate == format(target.value.0) && editEndDate == format(target.value.1)
              else
                && editDialog == old(editDialog)
                && editStartDate == old(editStartDate) && editEndDate == old(editEndDate)
    {
      var target := EditTarget(projects, kind, projectId, taskId);
      if target.Some? {
        editDialog := EditDialog(true, Some(kind), Some(projectId), taskId);
        editStartDate := format(target.value.0);
        editEndDate := format(target.value.1);
      }
    }

    method SetEditStartDate(text: string)
      modifies this`editStartDate
      ensures editStartDate == text
    {
      editStartDate := text;
    }

    method SetEditEndDate(text: string)
      modifies this`editEndDate
      ensures editEndDate == text
    {
      editEndDate := text;
    }

    /** Cancel, or the dialog closed from outside. */
    method CloseEditDialog()
      modifies this`editDialog
      ensures editDialog == ClosedDialog
    {
      editDialog := ClosedDialog;
    }

    /**
     * `handleSaveEdit`: `parse` stands for `new Date(text)`, `None` for an
     * invalid date. Nothing happens unless both fields parse; then both dates
     * are written, in whatever order they are, and the dialog closes.
     */
    method HandleSaveEdit(parse: string -> Option<int>)
      modifies this`projects, this`editDialog
      ensures var s, e := parse(editStartDate), parse(editEndDate);
              if s.None? || e.None? then
                projects == old(projects) && editDialog == old(editDialog)
              else
                projects == SavedEdit(old(projects), old(editDialog), s.value, e.value)
                && editDialog == ClosedDialog
    {
      var newStart := parse(editStartDate);
      var newEnd := parse(editEndDate);
      if newStart.None? || newEnd.None? {
        return;
      }
      var dialog := editDialog;
      if dialog.kind == Some(ProjectItem) && Truthy(dialog.projectId) {
        HandleUpdateProjectDuration(dialog.projectId.value, newStart.value, newEnd.value);
      } else if dialog.kind == Some(TaskItem) && Truthy(dialog.projectId) && Truthy(dialog.taskId) {
        HandleUpdateTaskDuration(dialog.projectId.value, dialog.taskId.value, newStart.value, newEnd.value);
      }
      editDialog := ClosedDialog;
    }
  }
}
