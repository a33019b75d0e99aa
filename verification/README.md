# ones project dashboard — a Dafny model of its date and list logic

This project models the client-side core of the *ones* project dashboard.

- **Project record and filter counts.** The project record and the filter counts that the header menus show next to each status, priority, tag and member bucket.
- **Filter menu.** Adding, toggling and clearing filter chips.
- **Projects page.** The page groups the chips by key and runs the filter pipeline over the project list. It then applies the ordering the view options ask for. It also keeps the chips and the URL's search parameters in step without echoing each other.
- **Cards.** The status label, the assignee initials and the secondary line of a project card.
- **Progress ring.** The done count, the percentage and the colour band of a project's progress ring.
- **Kanban board.** The columns and moving cards between them.
- **Timeline.**
  - The view window: mode, zoom, the start day, navigation and the today marker.
  - The expand/collapse set.
  - The date updates that bar gestures and the edit dialog commit.
- **Timeline bar.** The timeline's draggable bar:
  - its geometry;
  - how a pointer-down is classified;
  - the live feedback during a drag;
  - the commit rule on release.
- **User list.** The paging arithmetic of the server's user list.

Dates are whole calendar days, with day 0 being 1970-01-01, a Thursday. Pixels are integers. Zoom is counted in quarters, so 4 means 100%: every zoom the buttons can reach is a multiple of 0.25, so this is exact.

Some things are parameters rather than code, because they sit outside the model:
- URL encoding and decoding of chips;
- date formatting and `new Date(text)` parsing;
- the locale comparison of names.

The code has `useState`/`useRef` components whose handlers change state step by step. These become classes with `modifies` clauses:
- `Timeline.ProjectTimeline`;
- `ProjectsContent.ProjectsPage`;
- `Board.ProjectBoard`;
- `DraggableBar.Bar`.

Each handler is specified against a function on values, and the properties are proved about those functions. Loops are methods with invariants:
- `ComputeFilterCounts`, proved equal to the tally `Tally`;
- `GroupChips`, proved equal to `Grouped`;
- the board's `Groups`, proved equal to `Column`;
- the filter pipeline `FilteredProjects`, proved equal to `Displayed`.

Two behaviours of the code are stated as lemmas rather than corrected:

- **The sync latch.** The page sets `isSyncing` before rewriting the URL, and the search-parameter effect returns early when the parameters equal `prevParams`. So when the rewrite's echo comes back unchanged, the flag stays set. The next change made from outside the page then only clears the flag: its chips are not adopted (`ProjectsContent.EchoLeavesLatchSet`). Whether a router delivers such an echo is outside the code, so this is recorded as behaviour, not as a defect.
- **The edit dialog.** Saving the dialog writes both dates as typed, even an end before the start. A resize gesture refuses that (`Timeline.SaveAcceptsInvertedDates`).

## Model

| member | source | states |
|---|---|---|
| ProjectData.Inc | apps/web/src/lib/data/projects.ts:443 | a bump adds the key, raises its count by one (a missing key counting as zero) and leaves every other count alone |
| ProjectData.ComputeFilterCounts | apps/web/src/lib/data/projects.ts:433-464 | the nested loops produce exactly the tally of the list, one project at a time; an empty list gives four empty maps |
| ProjectData.CountTagsInto | apps/web/src/lib/data/projects.ts:447-450 | the tag loop over one project performs exactly the fold `CountTags`, whose meaning `CountTagsIs` states |
| ProjectData.StatusCountIsNumber | apps/web/src/lib/data/projects.ts:443 | the status count of `s` is the number of projects whose status is `s` |
| ProjectData.PriorityCountIsNumber | apps/web/src/lib/data/projects.ts:445 | the priority count of `q` is the number of projects with priority `q` |
| ProjectData.StatusCountsSumToLength | apps/web/src/lib/data/projects.ts:441-443 | the status counts add up to the number of projects |
| ProjectData.PriorityCountsSumToLength | apps/web/src/lib/data/projects.ts:441-445 | the priority counts add up to the number of projects |
| ProjectData.StatusKeysOccur | apps/web/src/lib/data/projects.ts:443 | a status has a key only if some project has it: no zero entries |
| ProjectData.CountTagsIs | apps/web/src/lib/data/projects.ts:447-450 | the inner tag loop raises the count of `t` by the number of the project's tags whose lower case is `t` |
| ProjectData.TagCountIsOccurrences | apps/web/src/lib/data/projects.ts:441-450 | the tag count of `t` is the number of tag occurrences, across all projects, that lower-case to `t` |
| ProjectData.MemberBuckets | apps/web/src/lib/data/projects.ts:452-460 | every project lands in exactly one of `no-member`/`current`; `zhangsan` never exceeds `current`; no other member key appears |
| ViewOptions.ChipsWithout | apps/web/src/components/projects-content.tsx:23 | removal keeps every chip except the removed pair, with its multiplicity, in the original order |
| ProjectHeader.AddFilter | apps/web/src/components/project-header.tsx:33-37 | no request exactly when the chip is already present; otherwise the old chips followed by the one new chip |
| ProjectHeader.ToggleFilter | apps/web/src/components/project-header.tsx:39-45 | a present chip is asked to be removed; an absent one is added |
| ProjectHeader.ClearAll | apps/web/src/components/project-header.tsx:122 | whatever the chips were, clearing leaves none |
| ProjectHeader.AddFilterResult | apps/web/src/components/project-header.tsx:33-37 | after adding, the chip is present, every old chip is kept, nothing else appears, and a duplicate-free list stays duplicate-free |
| ProjectHeader.ChipsWithoutAppended | apps/web/src/components/projects-content.tsx:23 | removing a chip just appended to a list without it gives the list back |
| ProjectHeader.ToggleFlips | apps/web/src/components/project-header.tsx:39-45 | a toggle flips the chip's presence and leaves every other chip's count unchanged |
| ProjectHeader.ToggleTwice | apps/web/src/components/project-header.tsx:39-45 | two toggles restore the set of chips, and the very list when the chip was absent |
| ProjectHeader.StatusEntryToggles | apps/web/src/components/project-header.tsx:82-84 | a status menu entry reads checked after its click exactly when it read unchecked before |
| ProjectHeader.PriorityEntryToggles | apps/web/src/components/project-header.tsx:103-105 | the same for a priority entry |
| Text.Lower | apps/web/src/components/projects-content.tsx:81-82 | lower-casing keeps the length and maps each character on its own |
| Text.Trim | apps/web/src/components/projects-content.tsx:81-82 | the trim is the slice of the input left once the white space before and after it is cut: only white space lies outside it, and neither end of it is white space |
| Text.TrimNoop | apps/web/src/components/projects-content.tsx:81-82 | a string without white space at its ends is its own trim |
| Text.NormalizeIdempotent | apps/web/src/components/projects-content.tsx:81-82 | normalising a key or value twice is normalising it once |
| Text.JoinLength | apps/web/src/components/project-card.tsx:75 | a join is as long as its parts plus one separator between each pair |
| Text.JoinStartsWithFirst | apps/web/src/components/project-card.tsx:75 | a join begins with its first part |
| ProjectsContent.ClassifyKeyNormalized | apps/web/src/components/projects-content.tsx:81-86 | a chip key's case and surrounding white space do not change its group |
| ProjectsContent.ClassifyStatusKey | apps/web/src/components/projects-content.tsx:81-83 | the header's `Status` key selects the status group |
| ProjectsContent.ClassifyTagKey | apps/web/src/components/projects-content.tsx:85 | `tags` selects the tag group by prefix |
| ProjectsContent.ClassifyPicKey | apps/web/src/components/projects-content.tsx:86 | `PIC` selects the member group |
| ProjectsContent.ClassifyPicsKeyIgnored | apps/web/src/components/projects-content.tsx:83-86 | `pics` selects no group: `pic` matches only exactly |
| ProjectsContent.AddChipSetOf | apps/web/src/components/projects-content.tsx:80-87 | one chip adds its normalised value to its own group's set and to no other |
| ProjectsContent.GroupedMembership | apps/web/src/components/projects-content.tsx:75-87 | a value is in a group's set if and only if some chip of that group carries it |
| ProjectsContent.AddNormalized | apps/web/src/components/projects-content.tsx:83-86 | the prefix tests add the value to the group the normalised key selects, and to none when no prefix matches |
| ProjectsContent.GroupChips | apps/web/src/components/projects-content.tsx:75-87 | the chip loop builds exactly the grouped sets |
| ProjectsContent.Keep | apps/web/src/components/projects-content.tsx:72 | one `filter` keeps only projects satisfying its criterion, in their original order (`KeepCopies` gives the multiplicities) |
| ProjectsContent.KeepCopies | apps/web/src/components/projects-content.tsx:72 | every project satisfying the criterion is kept as many times as it occurs, every other one never |
| ProjectsContent.KeepAll | apps/web/src/components/projects-content.tsx:71-97 | the pipeline keeps only projects satisfying every criterion, in their original order (`KeepAllCopies` gives the multiplicities) |
| ProjectsContent.KeepAllCopies | apps/web/src/components/projects-content.tsx:71-97 | a project satisfying every criterion is kept as many times as it occurs, any other one never |
| ProjectsContent.KeepAfterKeepAll | apps/web/src/components/projects-content.tsx:89-97 | filtering an already filtered list is filtering once by both criteria |
| ProjectsContent.PipelineStep | apps/web/src/components/projects-content.tsx:89-97 | a conditional `filter` step narrows the list exactly as adding its criterion does |
| ProjectsContent.CriteriaMeanVisible | apps/web/src/components/projects-content.tsx:71-97 | the criteria the pipeline applies hold exactly for projects that are open (unless closed ones are shown) and match every non-empty chip group |
| ProjectsContent.FilterMatchExamples | apps/web/src/components/projects-content.tsx:89-96 | status and tag chips match case-insensitively and exactly, a member chip matches any member containing it: `active` and `ui` select a project of status Active tagged `UI`, `planned` and `web` do not, and `zhang` selects member `Zhangsan` |
| ProjectsContent.Insert | apps/web/src/components/projects-content.tsx:99-102 | insertion adds exactly the one element |
| ProjectsContent.SortBy | apps/web/src/components/projects-content.tsx:99-102 | sorting is a permutation |
| ProjectsContent.InsertSorted | apps/web/src/components/projects-content.tsx:99-102 | inserting into a sorted list under a total comparison keeps it sorted |
| ProjectsContent.SortBySorted | apps/web/src/components/projects-content.tsx:99-102 | the sort's result is sorted under a total comparison |
| ProjectsContent.DisplayedMeaning | apps/web/src/components/projects-content.tsx:68-104 | the shown list is a permutation of exactly the visible projects; it is in list order under manual ordering, by end date under date ordering, by name under alphabetical ordering |
| ProjectsContent.ClosedProjectsHidden | apps/web/src/components/projects-content.tsx:71-73 | with closed projects hidden, no completed or cancelled project is shown |
| ProjectsContent.FilteredProjects | apps/web/src/components/projects-content.tsx:68-104 | the memo's successive filters and sort compute the displayed list |
| ProjectsContent.SortProjects | apps/web/src/components/projects-content.tsx:99-103 | the copy is sorted by name, by end date, or left as is, as the ordering says |
| ProjectsContent.OnParams | apps/web/src/components/projects-content.tsx:40-49 | parameters equal to the last ones seen change nothing, whatever the flag; new parameters while a rewrite is pending only clear the flag; otherwise the chips either stay or become the parsed parameters, which are then remembered |
| ProjectsContent.OnReplace | apps/web/src/components/projects-content.tsx:52-66 | a rewrite sets the flag, remembers the encoded chips and leaves the chips alone |
| ProjectsContent.OwnNavigationNotReparsed | apps/web/src/components/projects-content.tsx:40-66 | the page's own URL rewrite never re-parses its chips; the flag stays set only when the echo equals what was sent |
| ProjectsContent.ExternalChangeAdopted | apps/web/src/components/projects-content.tsx:40-49 | an outside parameter change with no rewrite pending becomes the chips, and seeing it again changes nothing |
| ProjectsContent.EchoLeavesLatchSet | apps/web/src/components/projects-content.tsx:40-45 | an unchanged echo leaves the flag set, so the next outside change clears it without updating the chips |
| ProjectsContent.ProjectsPage.constructor | apps/web/src/components/projects-content.tsx:16-20 | default view options, no chips, both latches clear |
| ProjectsContent.ProjectsPage.OnSearchParams | apps/web/src/components/projects-content.tsx:33-50 | the effect moves the chips and latches as `OnParams` says |
| ProjectsContent.ProjectsPage.ReplaceUrlFromChips | apps/web/src/components/projects-content.tsx:52-66 | both latches set, and the search navigated to is the encoded chips |
| ProjectsContent.ProjectsPage.RemoveFilter | apps/web/src/components/projects-content.tsx:22-26 | the chips lose the pair and the URL is rewritten from them |
| ProjectsContent.ProjectsPage.ApplyFilters | apps/web/src/components/projects-content.tsx:28-31 | the chips become the given list and the URL is rewritten from it |
| ProjectsContent.ProjectsPage.SetViewOptions | apps/web/src/components/projects-content.tsx:117 | the options become the header's choice |
| ProjectsContent.ProjectsPage.Render | apps/web/src/components/projects-content.tsx:68-108 | the current view gets the displayed list and the header gets the tally of the unfiltered projects |
| Card.StatusLabel | apps/web/src/components/project-card.tsx:18-53 | a status outside the five is shown as itself |
| Card.StatusLabelsDistinct | apps/web/src/components/project-card.tsx:18-49 | each of the five statuses gets its own label, none of which is a status name |
| Card.Split | apps/web/src/components/project-card.tsx:63 | `split(' ')` never returns an empty list |
| Card.FirstCharsOfSplit | apps/web/src/components/project-card.tsx:63-65 | splitting on spaces and joining first characters yields exactly the first character of every word |
| Card.Take2 | apps/web/src/components/project-card.tsx:66 | a prefix of at most two characters, exactly two when there are that many |
| Card.Initials | apps/web/src/components/project-card.tsx:57-68 | no initials exactly when there is no first member or it is empty; otherwise at most two characters |
| Card.InitialsAreWordStarts | apps/web/src/components/project-card.tsx:61-68 | the initials are the first two word starts of the first member, upper-cased |
| Card.InitialsOfFullName | apps/web/src/components/project-card.tsx:61-68 | `Jo Li` gives `JL` |
| Card.InitialsOfThreeWords | apps/web/src/components/project-card.tsx:61-68 | `a b c` gives `AB`: only two words count |
| Card.PresentLabels | apps/web/src/components/project-card.tsx:75 | `filter(Boolean)` keeps no more labels than it is given (`PresentLabelsWhich`, `PresentLabelsInOrder` and `PresentLabelsCopies` state which) |
| Card.PresentLabelsWhich | apps/web/src/components/project-card.tsx:74-75 | nothing is kept exactly when no label is truthy; whatever is kept is a non-empty label of the list |
| Card.PresentLabelsInOrder | apps/web/src/components/project-card.tsx:75 | the kept labels are truthy entries of the list in its order |
| Card.PresentLabelsCopies | apps/web/src/components/project-card.tsx:75 | each non-empty label is kept as many times as it occurs and the empty one never; with the order lemma, the kept labels are exactly the truthy ones in order |
| Card.SecondaryLine | apps/web/src/components/project-card.tsx:70-81 | a truthy client starts the line; with no truthy label the first tag does |
| Card.SecondaryLineParts | apps/web/src/components/project-card.tsx:70-81 | the line is the present labels joined by ` • ` when any is truthy, else the tags joined by it when there are tags, else empty; with the joined length |
| Card.EmptyLabelDropped | apps/web/src/components/project-card.tsx:75 | an empty label is dropped together with its separator |
| Card.SecondaryLineFromLabels | apps/web/src/components/project-card.tsx:74-75 | client `Acme`, empty type and `6 weeks` give `Acme • 6 weeks` |
| Card.SecondaryLineFromTags | apps/web/src/components/project-card.tsx:77-79 | with no labels, the tags `web`, `ui` give `web • ui` |
| Progress.DoneCount | apps/web/src/components/project-progress.tsx:24 | the done count is at most the task count, zero exactly when no task is done, full exactly when all are |
| Progress.DoneCountIsDoneStatuses | apps/web/src/components/project-progress.tsx:24 | the done count is exactly the number of tasks whose status is `done` |
| Progress.Clamp | apps/web/src/components/project-progress.tsx:36 | the result is in 0..100 and equals the input when the input is |
| Progress.ComputeProjectProgress | apps/web/src/components/project-progress.tsx:21-39 | the percentage is in 0..100; with tasks, the total is their number and done is within it; a stored progress is shown clamped; no progress and no tasks shows 0 |
| Progress.PercentIsRoundedShare | apps/web/src/components/project-progress.tsx:27-32 | without a stored progress, the percentage is the done share rounded to the nearest whole percent |
| Progress.RoundedShareInRange | apps/web/src/components/project-progress.tsx:31 | the rounded share of done tasks is itself within 0..100 |
| Progress.DoneFromProgressInRange | apps/web/src/components/project-progress.tsx:25 | without tasks, a progress in 0..100 yields a done count within the task count |
| Progress.RecordProgress | apps/web/src/components/project-progress.tsx:21-39 | for a project record every task is counted and a stored progress in the API's range is shown unchanged |
| Progress.GetProgressColor | apps/web/src/components/project-progress.tsx:41-46 | each colour is exactly one interval of percentages |
| Progress.ColorMonotone | apps/web/src/components/project-progress.tsx:41-46 | more progress never shows a lower band |
| Board.Column | apps/web/src/components/project-board-view.tsx:66-76 | a column holds only projects of its status, and each of them (`ColumnKeepsOrderAndCopies` gives order and multiplicity) |
| Board.ColumnKeepsOrderAndCopies | apps/web/src/components/project-board-view.tsx:69-74 | a column keeps list order and holds each project of its status as many times as the list does, and no other project |
| Board.EmptyColumns | apps/web/src/components/project-board-view.tsx:67-68 | the map starts with exactly the four column statuses, each with an empty column |
| Board.PushKeepsColumns | apps/web/src/components/project-board-view.tsx:69-74 | pushing a card onto its column, when its status has one, extends the columns of the earlier cards to those including it |
| Board.ColumnSizes | apps/web/src/components/project-board-view.tsx:39 | the four columns hold every project except the cancelled ones |
| Board.SetStatus | apps/web/src/components/project-board-view.tsx:83 | the matching cards take the new status and nothing else changes |
| Board.MovedCardsChangeColumn | apps/web/src/components/project-board-view.tsx:78-84 | a moved card appears in its target column and in no other |
| Board.ProjectBoard.constructor | apps/web/src/components/project-board-view.tsx:59-60 | the cards are the given projects and nothing is being dragged |
| Board.ProjectBoard.ReceiveProjects | apps/web/src/components/project-board-view.tsx:62-64 | a new list from the page replaces the cards |
| Board.ProjectBoard.Groups | apps/web/src/components/project-board-view.tsx:66-76 | the map has exactly the four column statuses, each holding its column |
| Board.ProjectBoard.DragStart | apps/web/src/components/project-board-view.tsx:100-103 | the dragged card is recorded |
| Board.ProjectBoard.DragEnd | apps/web/src/components/project-board-view.tsx:99 | no card is being dragged |
| Board.ProjectBoard.DropTo | apps/web/src/components/project-board-view.tsx:78-84 | an empty id changes nothing; otherwise the drag ends and the card takes the column's status |
| Board.ProjectBoard.MoveCardTo | apps/web/src/components/project-board-view.tsx:125-131 | the menu moves the card to one of the four columns |
| DraggableBar.BarCoversItsDays | apps/web/src/components/project-timeline-draggable-bar.tsx:39-42 | the bar spans exactly the cells of the days from its start to its end, both included |
| DraggableBar.DragKindAt | apps/web/src/components/project-timeline-draggable-bar.tsx:55-56 | left grab zone, right grab zone or move, each for exactly its range of offsets |
| DraggableBar.GrabZonesDisjoint | apps/web/src/components/project-timeline-draggable-bar.tsx:55-56 | on a rendered bar the two grab zones never overlap |
| JsMath.JsRoundIsNearest | apps/web/src/components/project-timeline-draggable-bar.tsx:68 | `Math.round` of a ratio is the unique integer within half a unit, halves going up |
| DraggableBar.DaysMoved | apps/web/src/components/project-timeline-draggable-bar.tsx:68 | the days moved are the whole number of cells nearest the drag, halves rounded up |
| DraggableBar.ShortDragMovesNothing | apps/web/src/components/project-timeline-draggable-bar.tsx:67-70 | a drag moves zero days exactly when it is shorter than half a cell |
| DraggableBar.CommitOnRelease | apps/web/src/components/project-timeline-draggable-bar.tsx:66-84 | no commit for zero days; a move commits the shifted start; a resize commits only an `UpdateDuration`, only with a duration handler and only when the start stays strictly before the end, with the new dates |
| DraggableBar.RenderedWidth | apps/web/src/components/project-timeline-draggable-bar.tsx:136 | the rendered width is at least 50 pixels and is the visual width unless that is smaller |
| DraggableBar.VisualLeft | apps/web/src/components/project-timeline-draggable-bar.tsx:98-110 | a move or left resize shifts the left edge by the drag; otherwise it stays |
| DraggableBar.VisualWidth | apps/web/src/components/project-timeline-draggable-bar.tsx:98-110 | a move keeps the width; a resize follows the drag but never shows less than one cell |
| DraggableBar.FeedbackEdges | apps/web/src/components/project-timeline-draggable-bar.tsx:98-110 | a move shifts both edges; a right resize keeps the left edge and puts the right one under the pointer unless the bar would be narrower than a cell; a left resize puts the left edge under the pointer and keeps the right one unless the bar would be narrower than a cell |
| DraggableBar.MoveFeedbackMatchesCommit | apps/web/src/components/project-timeline-draggable-bar.tsx:62-72 | a move of whole cells commits and the bar lands where the drag showed it, with its width kept |
| DraggableBar.ResizeRightFeedbackMatchesCommit | apps/web/src/components/project-timeline-draggable-bar.tsx:78-82 | a committed right resize gives the width the drag showed |
| DraggableBar.ResizeLeftFeedbackMatchesCommit | apps/web/src/components/project-timeline-draggable-bar.tsx:73-77 | a committed left resize gives the position and width the drag showed |
| DraggableBar.RoundingExamples | apps/web/src/components/project-timeline-draggable-bar.tsx:68 | with 60-pixel cells, 85 pixels is one day, 25 is none, +30 rounds up and -30 rounds to zero |
| DraggableBar.ResizeLeftPastEndRejected | apps/web/src/components/project-timeline-draggable-bar.tsx:73-77 | a left resize onto or past the end commits nothing; one day short of it commits |
| DraggableBar.Bar.constructor | apps/web/src/components/project-timeline-draggable-bar.tsx:44-46 | a bar starts idle |
| DraggableBar.Bar.CurrentWidth | apps/web/src/components/project-timeline-draggable-bar.tsx:98-110 | the styled width is never below 50 pixels |
| DraggableBar.Bar.PointerDown | apps/web/src/components/project-timeline-draggable-bar.tsx:48-59 | from an idle bar, a gesture starts, of the kind the offset selects, from the pointer's position |
| DraggableBar.Bar.PointerMove | apps/web/src/components/project-timeline-draggable-bar.tsx:62-64 | the feedback offset is the pointer's travel since the pointer-down |
| DraggableBar.Bar.PointerUp | apps/web/src/components/project-timeline-draggable-bar.tsx:66-92 | the release makes the commit the rule prescribes for the total travel and always returns the bar to idle |
| DraggableBar.MoveGestureExample | apps/web/src/components/project-timeline-draggable-bar.tsx:48-92 | grabbing a bar's middle and dragging 130 pixels with 60-pixel cells moves the start two days |
| Timeline.Weekday | apps/web/src/components/project-timeline.tsx:58 | a weekday number in 0..6 |
| Timeline.StartOfWeek | apps/web/src/components/project-timeline.tsx:57-59 | the Monday on or before the given day |
| Timeline.CellWidth | apps/web/src/components/project-timeline.tsx:92-94 | the cell width is the base width times the zoom exactly, between half and twice the base |
| Timeline.DaysToRender | apps/web/src/components/project-timeline.tsx:85-86 | the window shows between 21 and 120 days |
| Timeline.BaseCellWidth | apps/web/src/components/project-timeline.tsx:92-93 | the base width is a positive multiple of four pixels, so every zoom in quarters gives whole pixels |
| Timeline.GetDates | apps/web/src/components/project-timeline.tsx:84-88 | one date per rendered day, starting at the window start, each the day after the previous |
| Timeline.TimelineWidth | apps/web/src/components/project-timeline.tsx:95 | the timeline is the number of rendered days times the cell width, that is a quarter of days × base width × zoom in quarters |
| Timeline.GridMappingInverse | apps/web/src/components/project-timeline.tsx:84-88 | a day is a column exactly when its offset from the window start is in range, and that column shows the day |
| Timeline.TodayOffset | apps/web/src/components/project-timeline.tsx:97-104 | the marker exists exactly when today is inside the window, at today's offset |
| Timeline.TodayMarkerOnItsColumn | apps/web/src/components/project-timeline.tsx:97-104 | the marker sits on the column whose date is today; without a marker today is not shown |
| Timeline.Navigate | apps/web/src/components/project-timeline.tsx:78-82 | the window moves by 12, 4 or 1 weeks by mode, so its weekday is kept |
| Timeline.WeeksStep | apps/web/src/components/project-timeline.tsx:80 | navigation moves by at least one week |
| Timeline.NavigationOverlapsWindow | apps/web/src/components/project-timeline.tsx:78-88 | the window after a navigation shares at least one day with the window before |
| Timeline.NavigateBackAndForth | apps/web/src/components/project-timeline.tsx:78-82 | back then forward, or forward then back, returns to the same window |
| Timeline.ZoomIn | apps/web/src/components/project-timeline.tsx:267 | a quarter more, capped at 200%: at or above the cap the result is the cap |
| Timeline.ZoomOut | apps/web/src/components/project-timeline.tsx:256 | a quarter less, floored at 50%: at or below the floor the result is the floor |
| Timeline.ZoomStaysInRange | apps/web/src/components/project-timeline.tsx:256-267 | no sequence of zoom presses leaves 50%..200% |
| Timeline.MoveProject | apps/web/src/components/project-timeline.tsx:146-158 | the matching projects start on the new day and keep their length; all else unchanged |
| Timeline.ResizeProject | apps/web/src/components/project-timeline.tsx:160-167 | the matching projects take exactly the two dates; all else unchanged |
| Timeline.MoveTaskIn | apps/web/src/components/project-timeline.tsx:112-120 | the matching tasks start on the new day and keep their length |
| Timeline.ResizeTaskIn | apps/web/src/components/project-timeline.tsx:137-140 | the matching tasks take exactly the two dates |
| Timeline.MoveTask | apps/web/src/components/project-timeline.tsx:106-124 | only the tasks of the matching project change |
| Timeline.ResizeTask | apps/web/src/components/project-timeline.tsx:126-144 | only the tasks of the matching project change |
| Timeline.ProjectGestureOutcome | apps/web/src/components/project-timeline.tsx:387-403 | a project bar's release changes nothing exactly in the refused cases; a move keeps the length; a resize leaves start before end |
| Timeline.TaskGestureOutcome | apps/web/src/components/project-timeline.tsx:446-463 | a task bar's release moves or resizes that task as the gesture says and leaves its sibling tasks alone |
| Timeline.Without | apps/web/src/components/project-timeline.tsx:69 | removal keeps exactly the other ids |
| Timeline.WithoutAppended | apps/web/src/components/project-timeline.tsx:69 | removing an id just appended to a list without it gives the list back |
| Timeline.ToggleExpanded | apps/web/src/components/project-timeline.tsx:67-71 | the project's expanded state flips and no other project's does |
| Timeline.ToggleTwice | apps/web/src/components/project-timeline.tsx:67-71 | two toggles restore which projects are expanded, and the very list when the project started collapsed |
| Timeline.Ids | apps/web/src/components/project-timeline.tsx:45 | one id per project, in order |
| Timeline.FindProject | apps/web/src/components/project-timeline.tsx:176 | none exactly when no project has the id; otherwise the first one that has it |
| Timeline.FindTask | apps/web/src/components/project-timeline.tsx:177 | none exactly when no task has the id; otherwise the first task that has it |
| Timeline.EditTarget | apps/web/src/components/project-timeline.tsx:174-177 | a project dialog finds nothing exactly when no project has the id, otherwise the first such project's dates; a task dialog without a task id finds nothing; with one it finds something exactly when the first project with the id holds a task with that id, and then gives the dates of the first such task of that project |
| Timeline.SavedEdit | apps/web/src/components/project-timeline.tsx:193-197 | a saved project dialog gives every project with its id both dates; a saved task dialog with truthy ids resizes the task in every project with the project id, and without both ids changes nothing; projects with other ids are unchanged; without a kind or a truthy project id nothing changes |
| Timeline.SaveAcceptsInvertedDates | apps/web/src/components/project-timeline.tsx:186-200 | a save stores an end before the start, where the resize gesture on the same item commits nothing |
| Timeline.SaveUnchangedProjectDates | apps/web/src/components/project-timeline.tsx:174-197 | when reading back the text `format` writes gives the same day, opening a project's dialog and saving the shown text leaves the projects unchanged |
| Timeline.SaveUnchangedShiftsDates | apps/web/src/components/project-timeline.tsx:179-197 | when reading back the text lands `shift` days from the written day, an unchanged save moves the project with that id by `shift` days and nothing else |
| Timeline.SavedProjectEdit | apps/web/src/components/project-timeline.tsx:193-194 | a save from a project's dialog is the duration update of the projects with that id |
| Timeline.SavedTaskEdit | apps/web/src/components/project-timeline.tsx:195-196 | a save from a task dialog gives each task with the task id, in each project with the project id, both dates, and leaves every other task and every other project field as it was |
| Timeline.ResizeToOwnDates | apps/web/src/components/project-timeline.tsx:160-167 | with unique ids, resizing to a project's own dates moved by `shift` shifts exactly that project |
| Timeline.SaveOwnDates | apps/web/src/components/project-timeline.tsx:193-194 | with unique ids, saving a project's dialog with its own dates moved by `shift` shifts that project alone |
| Timeline.ProjectTimeline.constructor | apps/web/src/components/project-timeline.tsx:37-59 | week mode at 100%, every project expanded, dialog closed, window on the Monday of last week |
| Timeline.ProjectTimeline.ReceiveProjects | apps/web/src/components/project-timeline.tsx:39-43 | new projects from the page replace the local list |
| Timeline.ProjectTimeline.ToggleProject | apps/web/src/components/project-timeline.tsx:67-71 | the expanded list becomes the toggled one |
| Timeline.ProjectTimeline.GoToToday | apps/web/src/components/project-timeline.tsx:73-76 | the window returns to its initial position |
| Timeline.ProjectTimeline.NavigateTime | apps/web/src/components/project-timeline.tsx:78-82 | the window start becomes the navigated one |
| Timeline.ProjectTimeline.SetViewMode | apps/web/src/components/project-timeline.tsx:244 | the mode becomes the chosen one |
| Timeline.ProjectTimeline.ZoomInPressed | apps/web/src/components/project-timeline.tsx:267 | the zoom steps in and stays in range |
| Timeline.ProjectTimeline.ZoomOutPressed | apps/web/src/components/project-timeline.tsx:256 | the zoom steps out and stays in range |
| Timeline.ProjectTimeline.HandleUpdateProject | apps/web/src/components/project-timeline.tsx:146-158 | the projects become the moved list |
| Timeline.ProjectTimeline.HandleUpdateProjectDuration | apps/web/src/components/project-timeline.tsx:160-167 | the projects become the resized list |
| Timeline.ProjectTimeline.HandleUpdateTask | apps/web/src/components/project-timeline.tsx:106-124 | the projects become the list with the task moved |
| Timeline.ProjectTimeline.HandleUpdateTaskDuration | apps/web/src/components/project-timeline.tsx:126-144 | the projects become the list with the task resized |
| Timeline.ProjectTimeline.HandleDoubleClick | apps/web/src/components/project-timeline.tsx:169-184 | a found item opens the dialog on its formatted dates; a missing one changes nothing |
| Timeline.ProjectTimeline.SetEditStartDate | apps/web/src/components/project-timeline.tsx:54 | the start field holds the typed text |
| Timeline.ProjectTimeline.SetEditEndDate | apps/web/src/components/project-timeline.tsx:55 | the end field holds the typed text |
| Timeline.ProjectTimeline.CloseEditDialog | apps/web/src/components/project-timeline.tsx:48-53 | the dialog is closed and forgets its item |
| Timeline.ProjectTimeline.HandleSaveEdit | apps/web/src/components/project-timeline.tsx:186-200 | an unparsable field changes nothing; otherwise the projects become `SavedEdit` of the old ones (the edited project, or the edited task of the project, takes both dates) and the dialog closes |
| UserPagination.Validate | packages/api/src/routers/user.ts:11-14 | accepted exactly when the defaulted limit is in 1..100 and the defaulted page is at least 1 |
| UserPagination.EmptyRequestDefaults | packages/api/src/routers/user.ts:12-13 | an empty request is limit 10, page 1 |
| UserPagination.Offset | packages/api/src/routers/user.ts:18 | the offset is never negative and is zero exactly on page 1 |
| UserPagination.TotalPages | packages/api/src/routers/user.ts:35 | `Math.ceil(total / limit)`: the last page starts before the total and the pages hold every row |
| UserPagination.TotalPagesIsCeiling | packages/api/src/routers/user.ts:35 | no other number of pages meets the ceiling bound |
| UserPagination.TotalPagesZeroIffNoRows | packages/api/src/routers/user.ts:35 | no pages exactly when there are no rows |
| UserPagination.RowOnItsPage | packages/api/src/routers/user.ts:18-35 | every row lies on exactly one announced page |
| UserPagination.List | packages/api/src/routers/user.ts:16-37 | the fetch window is the page's rows; the returned total is the count, zero when the count query returns nothing |
| UserPagination.PagesCoverRows | packages/api/src/routers/user.ts:29-36 | the announced pages hold every counted row, with no wholly empty page |

## Left out

- Case mapping and trimming cover ASCII letters and the white space ` `, tab, newline and carriage return only. JavaScript's `toLowerCase`, `toUpperCase` and `trim` follow full Unicode.
- `Math.round` is modelled on exact ratios. The progress code computes `(progress / 100) * totalTasks` and `(done / total) * 100` in floating point, which can differ from the exact value right at a half.
- Zoom is kept as an exact number of quarters. The code adds and subtracts 0.25 in floating point; those are exact in binary, so no value is lost.
- Time zones and daylight-saving shifts are not modelled: dates are whole calendar days. `addDays`, `addWeeks`, `differenceInCalendarDays` and `startOfWeek` become day arithmetic.
- `format` and `new Date(text)` are parameters (`format` in `HandleDoubleClick`, `parse` in `HandleSaveEdit`).
- Timeline.SaveUnchangedProjectDates: proved only under the hypothesis that reading back the text `format` wrote gives the same day. The code formats with date-fns `format`, which uses local time, and reads back with `new Date('yyyy-MM-dd')`, which takes a date-only string as midnight UTC. West of UTC that lands on the previous local day, so an unchanged save moves the project a day earlier; `SaveUnchangedShiftsDates` states what a save then does for any such shift.
- The URL encoding of chips is not part of this model: `chipsToParams` and `paramsToChips` are parameters, so no round trip between them is claimed. Neither is the reconstruction of the parameter string from the router's search object.
- `localeCompare` is a parameter `nameLe`. The alphabetical order is proved sorted only when that comparison is total. Sort stability is not modelled: the result is stated as a sorted permutation, not as a stable sort.
- The date ordering's `endDate?.getTime() || 0` fallback is not modelled, because the project record's end date is mandatory.
- TagCountIsOccurrences: the tallies are plain objects (`{}`), so a tag that lower-cases to a name inherited from `Object.prototype` is miscounted there. For `constructor`, `res.tags[id] || 0` reads the inherited function, and the count becomes a string. For `__proto__`, the string assigned is ignored, so that key never appears. The model's maps have no inherited keys and count those tags like any other.
- Strings are sequences of Unicode scalar values, while JavaScript indexes UTF-16 code units. So the initials' `p[0]` and `slice(0, 2)` differ from the model on characters outside the Basic Multilingual Plane: there JavaScript takes half of a surrogate pair.
- Card.StatusLabel: the contract states only the fall-through for unknown strings. `StatusLabelsDistinct` covers the five known labels; the pill and dot styles are presentation and are left out.
- The board's `columnStatusLabel`, the dragged card's styling and the drag data transfer are not modelled; `DropTo` receives the carried id as a parameter.
- DraggableBar.Bar.PointerDown: requires an idle bar. In the code a second pointer-down during a gesture adds a second pair of window listeners; the next pointer-up runs both pointer-up handlers, so one release commits once per open gesture, each with its own start position, kind and item, and each handler then removes its own pair. Overlapping gestures are not modelled.
- The DOM is not modelled: the bounding rectangle, `document.body.style.cursor`, adding and removing window listeners, `preventDefault` and keyboard activation. `Bar.PointerDown` receives the offset and the rectangle width as numbers.
- React scheduling is not modelled. Handlers run in the order the model calls them, state updates apply at once, and memoised values are recomputed functions.
- The auto-scroll to today and the rendering itself (JSX, class names, the weekend shading) are presentation.
- Zod's schema also accepts non-integer numbers for `limit` and `page`; the model takes integers. The user rows returned by the query, their ordering, and authentication are outside the model; only the count enters.
- The seed project data is not reproduced: every property is proved for all project lists.
