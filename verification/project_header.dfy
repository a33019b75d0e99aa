/**
 * The header's filter menu. It never changes the chips itself: it asks the
 * page either to replace the whole chip list or to remove one chip, and the
 * page does so (`ViewOptions.ChipsWithout` is the removal).
 */
module ProjectHeader {
  import opened ViewOptions
  import opened ProjectData

  /** What a menu action hands to the page. */
  datatype Request =
    | NoRequest
    | FiltersChange(chips: seq<FilterChip>)
    | RemoveFilter(key: string, value: string)

  /** The chips once the page has handled the request. */
  function Handled(filters: seq<FilterChip>, r: Request): seq<FilterChip> {
    match r
    case NoRequest => filters
    case FiltersChange(chips) => chips
    case RemoveFilter(key, value) => ChipsWithout(filters, key, value)
  }

  /** `filters.some((f) => f.key === key && f.value === value)`. */
  predicate HasChip(filters: seq<FilterChip>, key: string, value: string) {
    FilterChip(key, value) in filters
  }

  predicate Distinct(filters: seq<FilterChip>) {
    forall i, j :: 0 <= i < j < |filters| ==> filters[i] != filters[j]
  }

  /** `addFilter`: an existing chip is not added again; a new one goes at the end. */
  function AddFilter(filters: seq<FilterChip>, key: string, value: string): (r: Request)
    ensures r.NoRequest? <==> HasChip(filters, key, value)
    ensures r.FiltersChange? ==>
              |r.chips| == |filters| + 1 && r.chips[..|filters|] == filters && r.chips[|filters|] == FilterChip(key, value)
  {
    if HasChip(filters, key, value) then NoRequest
    else FiltersChange(filters + [FilterChip(key, value)])
  }

  /** `toggleFilter`: removes the chip when it is there, adds it otherwise. */
  function ToggleFilter(filters: seq<FilterChip>, key: string, value: string): (r: Request)
    ensures HasChip(filters, key, value) ==> r == RemoveFilter(key, value)
    ensures !HasChip(filters, key, value) ==> r == AddFilter(filters, key, value)
  {
    if HasChip(filters, key, value) then RemoveFilter(key, value) else AddFilter(filters, key, value)
  }

  /** "Clear all" and "Reset" both ask for the empty list. */
  function ClearAll(): (r: Request)
    ensures forall filters :: Handled(filters, r) == []
  {
    FiltersChange([])
  }

  /** The checkbox of a status entry: a chip with key `Status` and that status's name. */
  predicate StatusChecked(filters: seq<FilterChip>, s: Status) {
    HasChip(filters, "Status", StatusName(s))
  }

  predicate PriorityChecked(filters: seq<FilterChip>, p: Priority) {
    HasChip(filters, "Priority", PriorityName(p))
  }

  /** Adding a chip makes it present, keeps every other chip, and never creates a duplicate. */
  lemma AddFilterResult(filters: seq<FilterChip>, key: string, value: string)
    ensures var after := Handled(filters, AddFilter(filters, key, value));
            && HasChip(after, key, value)
            && (forall c :: c in filters ==> c in after)
            && (forall c :: c in after ==> c in filters || c == FilterChip(key, value))
            && (Distinct(filters) ==> Distinct(after))
  {
  }

  lemma {:induction false} ChipsWithoutAppended(filters: seq<FilterChip>, key: string, value: string)
    requires !HasChip(filters, key, value)
    ensures ChipsWithout(filters + [FilterChip(key, value)], key, value) == filters
  {
    if filters == [] {
      assert [FilterChip(key, value)][1..] == [];
    } else {
      assert (filters + [FilterChip(key, value)])[1..] == filters[1..] + [FilterChip(key, value)];
      ChipsWithoutAppended(filters[1..], key, value);
    }
  }

  /** A toggle flips whether the chip is present and leaves the count of every other chip alone. */
  lemma ToggleFlips(filters: seq<FilterChip>, key: string, value: string)
    ensures var after := Handled(filters, ToggleFilter(filters, key, value));
            && (HasChip(after, key, value) <==> !HasChip(filters, key, value))
            && (forall c :: c != FilterChip(key, value) ==> multiset(after)[c] == multiset(filters)[c])
  {
  }

  /**
   * Toggling the same chip twice keeps the set of chips, and gives back the
   * very same list when the chip was absent to begin with.
   */
  lemma ToggleTwice(filters: seq<FilterChip>, key: string, value: string)
    ensures var once := Handled(filters, ToggleFilter(filters, key, value));
            var twice := Handled(once, ToggleFilter(once, key, value));
            && (forall c :: c in twice <==> c in filters)
            && (!HasChip(filters, key, value) ==> twice == filters)
  {
    if !HasChip(filters, key, value) {
      ChipsWithoutAppended(filters, key, value);
    }
  }

  /** A status entry shows as checked after its toggle exactly when it was unchecked before. */
  lemma StatusEntryToggles(filters: seq<FilterChip>, s: Status)
    ensures StatusChecked(Handled(filters, ToggleFilter(filters, "Status", StatusName(s))), s)
            <==> !StatusChecked(filters, s)
  {
    ToggleFlips(filters, "Status", StatusName(s));
  }

  lemma PriorityEntryToggles(filters: seq<FilterChip>, p: Priority)
    ensures PriorityChecked(Handled(filters, ToggleFilter(filters, "Priority", PriorityName(p))), p)
            <==> !PriorityChecked(filters, p)
  {
    ToggleFlips(filters, "Priority", PriorityName(p));
  }
}
