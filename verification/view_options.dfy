/** Filter chips and list view options shared by the header and the projects page. */
module ViewOptions {
  import opened Seqs

  datatype ViewType = List | Board | Timeline
  datatype TaskViewMode = Indented | Collapsed | Flat
  datatype Ordering = Manual | Alphabetical | Date
  datatype GroupBy = NoGrouping | ByStatus | ByAssignee | ByTags

  datatype ViewOptions = ViewOptions(
    viewType: ViewType,
    tasks: TaskViewMode,
    ordering: Ordering,
    showAbsentParent: bool,
    showClosedProjects: bool,
    groupBy: GroupBy,
    properties: seq<string>)

  /** One active filter criterion: a (key, value) pair as typed by the user or read from the URL. */
  datatype FilterChip = FilterChip(key: string, value: string)

  const DefaultViewOptions := ViewOptions(
    List, Indented, Manual, false, true, NoGrouping,
    ["title", "status", "assignee", "dueDate"])

  /** `filters.filter((f) => !(f.key === key && f.value === value))`. */
  function ChipsWithout(chips: seq<FilterChip>, key: string, value: string): (r: seq<FilterChip>)
    ensures forall c :: c in r <==> c in chips && c != FilterChip(key, value)
    ensures forall c :: c != FilterChip(key, value) ==> multiset(r)[c] == multiset(chips)[c]
    ensures SubsequenceOf(r, chips)
  {
    if chips == [] then []
    else
      var rest := ChipsWithout(chips[1..], key, value);
      assert chips == [chips[0]] + chips[1..];
      if chips[0] == FilterChip(key, value) then rest else [chips[0]] + rest
  }
}
