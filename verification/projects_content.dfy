/**
 * The projects page: filter chips grouped by key, the filter pipeline over the
 * project list, the ordering, and the guard that keeps the chips and the URL's
 * search parameters from echoing each other forever.
 */
module ProjectsContent {
  import opened Wrappers
  import opened Text
  import opened Seqs
  import opened ViewOptions
  import opened ProjectData

  // ---------------------------------------------------------------------------
  // Chip groups

  datatype ChipGroup = StatusGroup | PriorityGroup | TagGroup | MemberGroup

  /** Which group a chip's key selects, judged on the trimmed, lower-cased key; `None` ignores the chip. */
  function ClassifyKey(key: string): Option<ChipGroup> {
    ClassifyNormalized(Normalize(key))
  }

  function ClassifyNormalized(k: string): Option<ChipGroup> {
    if StartsWith(k, "status") then Some(StatusGroup)
    else if StartsWith(k, "priority") then Some(PriorityGroup)
    else if StartsWith(k, "tag") then Some(TagGroup)
    else if k == "pic" || StartsWith(k, "member") then Some(MemberGroup)
    else None
  }

  /** Case and surrounding white space of a key do not matter. */
  lemma ClassifyKeyNormalized(key: string)
    ensures ClassifyKey(Normalize(key)) == ClassifyKey(key)
  {
    NormalizeIdempotent(key);
  }

  /** A key with no surrounding white space is classified by its lower-cased letters. */
  lemma NormalizeTrimmed(s: string)
    requires s == [] || (!IsSpace(s[0]) && !IsSpace(s[|s| - 1]))
    ensures Normalize(s) == Lower(s)
  {
    TrimNoop(s);
  }

  lemma ClassifyStatusKey()
    ensures ClassifyKey("Status") == Some(StatusGroup)
  {
    NormalizeTrimmed("Status");
    assert Lower("Status") == "status";
  }

  lemma ClassifyTagKey()
    ensures ClassifyKey("tags") == Some(TagGroup)
  {
    NormalizeTrimmed("tags");
    assert Lower("tags") == "tags";
    assert !StartsWith("tags", "status") && !StartsWith("tags", "priority");
    assert "tags"[..3] == "tag";
    assert StartsWith("tags", "tag");
  }

  lemma ClassifyPicKey()
    ensures ClassifyKey("PIC") == Some(MemberGroup)
  {
    NormalizeTrimmed("PIC");
    assert Lower("PIC") == "pic";
    assert !StartsWith("pic", "status") && !StartsWith("pic", "priority") && !StartsWith("pic", "tag");
  }

  /** `pic` must match exactly, unlike the other keys, which match by prefix. */
  lemma ClassifyPicsKeyIgnored()
    ensures ClassifyKey("pics") == None
  {
    NormalizeTrimmed("pics");
    assert Lower("pics") == "pics";
    assert "pics"[..3] != "tag" && "pics" != "pic";
    assert !StartsWith("pics", "status") && !StartsWith("pics", "priority") && !StartsWith("pics", "member");
  }

  /** The four value sets built from the chips; values are trimmed and lower-cased. */
  datatype ChipSets = ChipSets(
    status: set<string>,
    priority: set<string>,
    tags: set<string>,
    members: set<string>)

  const NoChips := ChipSets({}, {}, {}, {})

  function SetOf(g: ChipSets, grp: ChipGroup): set<string> {
    match grp
    case StatusGroup => g.status
    case PriorityGroup => g.priority
    case TagGroup => g.tags
    case MemberGroup => g.members
  }

  /** Adds `v` to the set of group `grp`; no group, no change. */
  function AddValue(g: ChipSets, grp: Option<ChipGroup>, v: string): ChipSets {
    match grp
    case Some(StatusGroup) => g.(status := g.status + {v})
    case Some(PriorityGroup) => g.(priority := g.priority + {v})
    case Some(TagGroup) => g.(tags := g.tags + {v})
    case Some(MemberGroup) => g.(members := g.members + {v})
    case None => g
  }

  function AddChip(g: ChipSets, c: FilterChip): ChipSets {
    AddValue(g, ClassifyKey(c.key), Normalize(c.value))
  }

  lemma AddValueSetOf(g: ChipSets, k: Option<ChipGroup>, v: string, grp: ChipGroup)
    ensures SetOf(AddValue(g, k, v), grp) == SetOf(g, grp) + (if k == Some(grp) then {v} else {})
  {
  }

  /** The sets after the chips in order. */
  function Grouped(chips: seq<FilterChip>): ChipSets {
    if chips == [] then NoChips else AddChip(Grouped(chips[..|chips| - 1]), chips[|chips| - 1])
  }

  /** A chip adds its normalised value to the set of its group and to no other. */
  lemma AddChipSetOf(g: ChipSets, c: FilterChip, grp: ChipGroup)
    ensures SetOf(AddChip(g, c), grp) ==
            SetOf(g, grp) + (if ClassifyKey(c.key) == Some(grp) then {Normalize(c.value)} else {})
  {
    AddValueSetOf(g, ClassifyKey(c.key), Normalize(c.value), grp);
  }

  /** The chip selects group `grp` and carries value `v`. */
  predicate Carries(c: FilterChip, grp: ChipGroup, v: string) {
    ClassifyKey(c.key) == Some(grp) && Normalize(c.value) == v
  }

  /** A value is in a group's set exactly when some chip of that group carries it. */
  lemma {:induction false} GroupedMembership(chips: seq<FilterChip>, grp: ChipGroup, v: string)
    ensures v in SetOf(Grouped(chips), grp) ==> exists i :: 0 <= i < |chips| && Carries(chips[i], grp, v)
    ensures (exists i :: 0 <= i < |chips| && Carries(chips[i], grp, v)) ==> v in SetOf(Grouped(chips), grp)
  {
    if chips == [] {
      assert SetOf(Grouped(chips), grp) == {};
    } else {
      var n := |chips| - 1;
      var front := chips[..n];
      GroupedMembership(front, grp, v);
      AddChipSetOf(Grouped(front), chips[n], grp);
      assert Grouped(chips) == AddChip(Grouped(front), chips[n]);
      if v in SetOf(Grouped(chips), grp) {
        if v in SetOf(Grouped(front), grp) {
          var i :| 0 <= i < |front| && Carries(front[i], grp, v);
          assert front[i] == chips[i];
          assert 0 <= i < |chips| && Carries(chips[i], grp, v);
        } else {
          assert 0 <= n < |chips| && Carries(chips[n], grp, v);
        }
      }
      if exists i :: 0 <= i < |chips| && Carries(chips[i], grp, v) {
        var i :| 0 <= i < |chips| && Carries(chips[i], grp, v);
        if i < n {
          assert front[i] == chips[i];
          assert 0 <= i < |front| && Carries(front[i], grp, v);
        } else {
          assert i == n;
          assert Carries(chips[n], grp, v);
        }
        assert v in SetOf(Grouped(chips), grp);
      }
    }
  }

  /** One more chip adds its normalised value under its normalised key. */
  lemma GroupedStep(chips: seq<FilterChip>, i: nat)
    requires i < |chips|
    ensures Grouped(chips[..i + 1])
            == AddValue(Grouped(chips[..i]), ClassifyNormalized(Normalize(chips[i].key)), Normalize(chips[i].value))
  {
    assert chips[..i + 1][..i] == chips[..i];
  }

  /** The loop body: the normalised key tested against the four prefixes in order, `v` added to the first match. */
  method AddNormalized(g: ChipSets, k: string, v: string) returns (r: ChipSets)
    ensures r == AddValue(g, ClassifyNormalized(k), v)
  {
    r := g;
    if StartsWith(k, "status") {
      r := r.(status := r.status + {v});
    } else if StartsWith(k, "priority") {
      r := r.(priority := r.priority + {v});
    } else if StartsWith(k, "tag") {
      r := r.(tags := r.tags + {v});
    } else if k == "pic" || StartsWith(k, "member") {
      r := r.(members := r.members + {v});
    }
  }

  /** The `for ... of filters` loop that fills the four sets. */
  method GroupChips(chips: seq<FilterChip>) returns (g: ChipSets)
    ensures g == Grouped(chips)
  {
    g := NoChips;
    var i := 0;
    while i < |chips|
      invariant 0 <= i <= |chips|
      invariant g == Grouped(chips[..i])
    {
      GroupedStep(chips, i);
      var k := Normalize(chips[i].key);
      var v := Normalize(chips[i].value);
      g := AddNormalized(g, k, v);
      i := i + 1;
    }
    assert chips[..|chips|] == chips;
  }

  // ---------------------------------------------------------------------------
  // Filtering

  /** One `list = list.filter(...)` step of the pipeline. */
  datatype Criterion =
    | NotClosed
    | StatusIn(statuses: set<string>)
    | PriorityIn(priorities: set<string>)
    | TagIn(tags: set<string>)
    | MemberLike(members: set<string>)

  predicate Holds(c: Criterion, p: Project) {
    match c
    case NotClosed => p.status != Completed && p.status != Cancelled
    case StatusIn(s) => Lower(StatusName(p.status)) in s
    case PriorityIn(s) => Lower(PriorityName(p.priority)) in s
    case TagIn(s) => exists t :: t in p.tags && Lower(t) in s
    case MemberLike(s) => exists m, v :: m in p.members && v in s && Contains(Lower(m), v)
  }

  /**
   * The tag filter compares lower-cased tags with the chip values; the member
   * filter looks for a value inside a lower-cased member name.
   */
  lemma FilterMatchExamples(p: Project)
    requires p.status == Active && p.tags == ["UI"] && p.members == ["Zhangsan"]
    ensures Holds(StatusIn({"active"}), p) && !Holds(StatusIn({"planned"}), p)
    ensures Holds(TagIn({"ui"}), p) && !Holds(TagIn({"web"}), p)
    ensures Holds(MemberLike({"zhang"}), p)
  {
    assert Lower(StatusName(Active)) == "active";
    assert Lower("UI") == "ui";
    assert Lower("Zhangsan") == "zhangsan";
    assert StartsWith("zhangsan", "zhang");
    assert Contains(Lower(p.members[0]), "zhang");
  }

  predicate HoldsAll(cs: seq<Criterion>, p: Project) {
    forall c :: c in cs ==> Holds(c, p)
  }

  /** `list.filter(...)` for one criterion. */
  function Keep(xs: seq<Project>, c: Criterion): (r: seq<Project>)
    ensures forall p :: p in r <==> p in xs && Holds(c, p)
    ensures SubsequenceOf(r, xs)
  {
    if xs == [] then []
    else
      var rest := Keep(xs[1..], c);
      assert xs == [xs[0]] + xs[1..];
      if Holds(c, xs[0]) then [xs[0]] + rest else rest
  }

  /** The projects satisfying every criterion, in their order. */
  function KeepAll(xs: seq<Project>, cs: seq<Criterion>): (r: seq<Project>)
    ensures forall p :: p in r <==> p in xs && HoldsAll(cs, p)
    ensures SubsequenceOf(r, xs)
  {
    if xs == [] then []
    else
      var rest := KeepAll(xs[1..], cs);
      assert xs == [xs[0]] + xs[1..];
      if HoldsAll(cs, xs[0]) then [xs[0]] + rest else rest
  }

  /** One filter keeps every copy of each project it accepts. */
  lemma {:induction false} KeepCopies(xs: seq<Project>, c: Criterion)
    ensures forall p :: multiset(Keep(xs, c))[p] == if Holds(c, p) then multiset(xs)[p] else 0
  {
    if xs != [] {
      var rest := Keep(xs[1..], c);
      KeepCopies(xs[1..], c);
      assert multiset(xs) == multiset{xs[0]} + multiset(xs[1..]) by {
        assert xs == [xs[0]] + xs[1..];
      }
      if Holds(c, xs[0]) {
        assert multiset(Keep(xs, c)) == multiset{xs[0]} + multiset(rest);
      } else {
        assert Keep(xs, c) == rest;
      }
    }
  }

  /** The pipeline keeps every copy of each project that passes every criterion. */
  lemma {:induction false} KeepAllCopies(xs: seq<Project>, cs: seq<Criterion>)
    ensures forall p :: multiset(KeepAll(xs, cs))[p] == if HoldsAll(cs, p) then multiset(xs)[p] else 0
  {
    if xs != [] {
      var rest := KeepAll(xs[1..], cs);
      KeepAllCopies(xs[1..], cs);
      assert multiset(xs) == multiset{xs[0]} + multiset(xs[1..]) by {
        assert xs == [xs[0]] + xs[1..];
      }
      if HoldsAll(cs, xs[0]) {
        assert multiset(KeepAll(xs, cs)) == multiset{xs[0]} + multiset(rest);
      } else {
        assert KeepAll(xs, cs) == rest;
      }
    }
  }

  lemma {:induction false} KeepAllNothing(xs: seq<Project>)
    ensures KeepAll(xs, []) == xs
  {
    if xs != [] {
      KeepAllNothing(xs[1..]);
    }
  }

  /** Filtering a filtered list is filtering once by both. */
  lemma {:induction false} KeepAfterKeepAll(xs: seq<Project>, cs: seq<Criterion>, c: Criterion)
    ensures Keep(KeepAll(xs, cs), c) == KeepAll(xs, cs + [c])
  {
    if xs != [] {
      KeepAfterKeepAll(xs[1..], cs, c);
      assert HoldsAll(cs + [c], xs[0]) <==> HoldsAll(cs, xs[0]) && Holds(c, xs[0]) by {
        assert forall d :: d in cs + [c] <==> d in cs || d == c;
      }
      if HoldsAll(cs, xs[0]) {
        assert KeepAll(xs, cs) == [xs[0]] + KeepAll(xs[1..], cs);
        assert ([xs[0]] + KeepAll(xs[1..], cs))[1..] == KeepAll(xs[1..], cs);
      }
    }
  }

  /** The criteria after one pipeline step, which filters only when `active`. */
  function Step(cs: seq<Criterion>, c: Criterion, active: bool): seq<Criterion> {
    if active then cs + [c] else cs
  }

  lemma PipelineStep(xs: seq<Project>, cs: seq<Criterion>, c: Criterion, active: bool)
    ensures (if active then Keep(KeepAll(xs, cs), c) else KeepAll(xs, cs)) == KeepAll(xs, Step(cs, c, active))
  {
    if active {
      KeepAfterKeepAll(xs, cs, c);
    }
  }

  /** The steps the pipeline takes, in its order; a group without chips adds no step. */
  function Criteria(g: ChipSets, showClosedProjects: bool): seq<Criterion> {
    var closed := Step([], NotClosed, !showClosedProjects);
    var status := Step(closed, StatusIn(g.status), g.status != {});
    var priority := Step(status, PriorityIn(g.priority), g.priority != {});
    var tags := Step(priority, TagIn(g.tags), g.tags != {});
    Step(tags, MemberLike(g.members), g.members != {})
  }

  /**
   * Whether a project is shown: open unless closed projects are shown, and
   * matching every group that has chips (status and priority by name, a tag
   * in the tag set, a member name containing one of the member values).
   */
  predicate Visible(p: Project, g: ChipSets, showClosedProjects: bool) {
    && (showClosedProjects || (p.status != Completed && p.status != Cancelled))
    && (g.status != {} ==> Lower(StatusName(p.status)) in g.status)
    && (g.priority != {} ==> Lower(PriorityName(p.priority)) in g.priority)
    && (g.tags != {} ==> exists t :: t in p.tags && Lower(t) in g.tags)
    && (g.members != {} ==> exists m, v :: m in p.members && v in g.members && Contains(Lower(m), v))
  }

  lemma CriteriaMeanVisible(g: ChipSets, showClosedProjects: bool, p: Project)
    ensures HoldsAll(Criteria(g, showClosedProjects), p) <==> Visible(p, g, showClosedProjects)
  {
    var cs := Criteria(g, showClosedProjects);
    if !showClosedProjects { assert NotClosed in cs; }
    if g.status != {} { assert StatusIn(g.status) in cs; }
    if g.priority != {} { assert PriorityIn(g.priority) in cs; }
    if g.tags != {} { assert TagIn(g.tags) in cs; }
    if g.members != {} { assert MemberLike(g.members) in cs; }
  }

  // ---------------------------------------------------------------------------
  // Ordering

  /** `le(a, b)`: `a` may come before `b`, a comparator's `cmp(a, b) <= 0`. */
  ghost predicate Total<T(!new)>(le: (T, T) -> bool) {
    forall a, b :: le(a, b) || le(b, a)
  }

  predicate SortedBy<T>(s: seq<T>, le: (T, T) -> bool) {
    forall i :: 0 < i < |s| ==> le(s[i - 1], s[i])
  }

  function Insert<T>(x: T, s: seq<T>, le: (T, T) -> bool): (r: seq<T>)
    ensures multiset(r) == multiset(s) + multiset{x}
    ensures |r| == |s| + 1 && (r[0] == x || (s != [] && r[0] == s[0]))
  {
    if s == [] || le(x, s[0]) then [x] + s
    else
      assert s == [s[0]] + s[1..];
      [s[0]] + Insert(x, s[1..], le)
  }

  /** `Array.prototype.sort` with a comparator, as an insertion sort. */
  function SortBy<T>(xs: seq<T>, le: (T, T) -> bool): (r: seq<T>)
    ensures multiset(r) == multiset(xs)
  {
    if xs == [] then []
    else
      assert xs == [xs[0]] + xs[1..];
      Insert(xs[0], SortBy(xs[1..], le), le)
  }

  lemma {:induction false} InsertSorted<T(!new)>(x: T, s: seq<T>, le: (T, T) -> bool)
    requires Total(le) && SortedBy(s, le)
    ensures SortedBy(Insert(x, s, le), le)
  {
    if s != [] && !le(x, s[0]) {
      assert le(s[0], x);
      InsertSorted(x, s[1..], le);
      var r := Insert(x, s, le);
      assert r == [s[0]] + Insert(x, s[1..], le);
    }
  }

  lemma {:induction false} SortBySorted<T(!new)>(xs: seq<T>, le: (T, T) -> bool)
    requires Total(le)
    ensures SortedBy(SortBy(xs, le), le)
  {
    if xs != [] {
      SortBySorted(xs[1..], le);
      InsertSorted(xs[0], SortBy(xs[1..], le), le);
    }
  }

  /** `a.name.localeCompare(b.name)`, the comparison itself a parameter. */
  function ByName(nameLe: (string, string) -> bool): (Project, Project) -> bool {
    (a: Project, b: Project) => nameLe(a.name, b.name)
  }

  /** The `date` ordering: ascending end date. */
  function ByEndDate(): (Project, Project) -> bool {
    (a: Project, b: Project) => a.endDate <= b.endDate
  }

  function Ordered(list: seq<Project>, ordering: Ordering, nameLe: (string, string) -> bool): seq<Project> {
    match ordering
    case Alphabetical => SortBy(list, ByName(nameLe))
    case Date => SortBy(list, ByEndDate())
    case Manual => list
  }

  /** What the page shows for the given chips and view options. */
  function Displayed(projects: seq<Project>, filters: seq<FilterChip>, options: ViewOptions,
                     nameLe: (string, string) -> bool): seq<Project>
  {
    Ordered(KeepAll(projects, Criteria(Grouped(filters), options.showClosedProjects)), options.ordering, nameLe)
  }

  /**
   * The shown projects are exactly the visible ones: all of them, and in input
   * order under manual ordering; otherwise rearranged and sorted.
   */
  lemma DisplayedMeaning(projects: seq<Project>, filters: seq<FilterChip>, options: ViewOptions,
                         nameLe: (string, string) -> bool)
    ensures var g := Grouped(filters);
            var visible := KeepAll(projects, Criteria(g, options.showClosedProjects));
            var shown := Displayed(projects, filters, options, nameLe);
            && (forall p :: p in visible <==> p in projects && Visible(p, g, options.showClosedProjects))
            && SubsequenceOf(visible, projects)
            && multiset(shown) == multiset(visible)
            && (options.ordering == Manual ==> shown == visible)
            && (options.ordering == Date ==> SortedBy(shown, ByEndDate()))
            && (options.ordering == Alphabetical && Total(nameLe) ==> SortedBy(shown, ByName(nameLe)))
  {
    var g := Grouped(filters);
    var visible := KeepAll(projects, Criteria(g, options.showClosedProjects));
    forall p | p in projects
      ensures HoldsAll(Criteria(g, options.showClosedProjects), p) <==> Visible(p, g, options.showClosedProjects)
    {
      CriteriaMeanVisible(g, options.showClosedProjects, p);
    }
    if options.ordering == Date {
      SortBySorted(visible, ByEndDate());
    }
    if options.ordering == Alphabetical && Total(nameLe) {
      assert Total(ByName(nameLe)) by {
        forall a: Project, b: Project ensures ByName(nameLe)(a, b) || ByName(nameLe)(b, a) {
          assert nameLe(a.name, b.name) || nameLe(b.name, a.name);
        }
      }
      SortBySorted(visible, ByName(nameLe));
    }
  }

  /** With closed projects hidden, no completed or cancelled project is shown. */
  lemma ClosedProjectsHidden(projects: seq<Project>, filters: seq<FilterChip>, options: ViewOptions,
                             nameLe: (string, string) -> bool, p: Project)
    requires !options.showClosedProjects
    requires p in Displayed(projects, filters, options, nameLe)
    ensures p.status != Completed && p.status != Cancelled
  {
    DisplayedMeaning(projects, filters, options, nameLe);
    var g := Grouped(filters);
    var visible := KeepAll(projects, Criteria(g, options.showClosedProjects));
    assert p in multiset(Displayed(projects, filters, options, nameLe));
    assert p in visible;
  }

  /** The `filteredProjects` memo: the list is narrowed one `filter` at a time, then sorted. */
  method FilteredProjects(projects: seq<Project>, filters: seq<FilterChip>, options: ViewOptions,
                          nameLe: (string, string) -> bool) returns (sorted: seq<Project>)
    ensures sorted == Displayed(projects, filters, options, nameLe)
  {
    var list := projects;
    KeepAllNothing(projects);
    ghost var applied: seq<Criterion> := [];

    PipelineStep(projects, applied, NotClosed, !options.showClosedProjects);
    if !options.showClosedProjects {
      list := Keep(list, NotClosed);
    }
    applied := Step(applied, NotClosed, !options.showClosedProjects);

    var g := GroupChips(filters);

    PipelineStep(projects, applied, StatusIn(g.status), g.status != {});
    if g.status != {} {
      list := Keep(list, StatusIn(g.status));
    }
    applied := Step(applied, StatusIn(g.status), g.status != {});

    PipelineStep(projects, applied, PriorityIn(g.priority), g.priority != {});
    if g.priority != {} {
      list := Keep(list, PriorityIn(g.priority));
    }
    applied := Step(applied, PriorityIn(g.priority), g.priority != {});

    PipelineStep(projects, applied, TagIn(g.tags), g.tags != {});
    if g.tags != {} {
      list := Keep(list, TagIn(g.tags));
    }
    applied := Step(applied, TagIn(g.tags), g.tags != {});

    PipelineStep(projects, applied, MemberLike(g.members), g.members != {});
    if g.members != {} {
      list := Keep(list, MemberLike(g.members));
    }
    applied := Step(applied, MemberLike(g.members), g.members != {});
    assert applied == Criteria(g, options.showClosedProjects);

    sorted := SortProjects(list, options.ordering, nameLe);
  }

  /** `const sorted = list.slice()`, sorted in place when the ordering asks for it. */
  method SortProjects(list: seq<Project>, ordering: Ordering, nameLe: (string, string) -> bool)
    returns (sorted: seq<Project>)
    ensures sorted == Ordered(list, ordering, nameLe)
  {
    sorted := list;
    if ordering == Alphabetical {
      sorted := SortBy(sorted, ByName(nameLe));
    }
    if ordering == Date {
      sorted := SortBy(sorted, ByEndDate());
    }
  }

  // ---------------------------------------------------------------------------
  // The URL sync guard

  /**
   * The chips with the two latches: `isSyncing` is set when the page itself
   * rewrites the URL, `prevParams` holds the last parameter string seen or sent.
   */
  datatype SyncState = SyncState(filters: seq<FilterChip>, isSyncing: bool, prevParams: string)

  const InitialSync := SyncState([], false, "")

  /** The effect on a new search-parameter string; `paramsToChips` is the URL decoder. */
  function OnParams(s: SyncState, current: string, paramsToChips: string -> seq<FilterChip>): (r: SyncState)
    ensures r.isSyncing ==> r == s
    ensures r.filters == s.filters || (r.filters == paramsToChips(current) && r.prevParams == current)
    ensures r.prevParams == s.prevParams || r.prevParams == current
    ensures current == s.prevParams ==> r == s
    ensures current != s.prevParams && s.isSyncing ==> r == s.(isSyncing := false)
  {
    if s.prevParams == current then s
    else if s.isSyncing then s.(isSyncing := false)
    else SyncState(paramsToChips(current), false, current)
  }

  /** `replaceUrlFromChips`: both latches are set before navigating to the encoded chips. */
  function OnReplace(s: SyncState, chips: seq<FilterChip>, chipsToParams: seq<FilterChip> -> string): (r: SyncState)
    ensures r.isSyncing && r.prevParams == chipsToParams(chips) && r.filters == s.filters
  {
    s.(isSyncing := true, prevParams := chipsToParams(chips))
  }

  /** The page's own URL rewrite never re-parses the chips it came from. */
  lemma OwnNavigationNotReparsed(s: SyncState, chips: seq<FilterChip>, chipsToParams: seq<FilterChip> -> string,
                                 echo: string, paramsToChips: string -> seq<FilterChip>)
    ensures var r := OnParams(OnReplace(s.(filters := chips), chips, chipsToParams), echo, paramsToChips);
            r.filters == chips && r.prevParams == chipsToParams(chips)
            && (r.isSyncing <==> echo == chipsToParams(chips))
  {
  }

  /** A parameter change from outside, with no rewrite pending, becomes the chips. */
  lemma ExternalChangeAdopted(s: SyncState, current: string, paramsToChips: string -> seq<FilterChip>)
    requires !s.isSyncing && current != s.prevParams
    ensures var r := OnParams(s, current, paramsToChips);
            r.filters == paramsToChips(current) && r.prevParams == current && !r.isSyncing
            && OnParams(r, current, paramsToChips) == r
  {
  }

  /**
   * When the URL echo of a rewrite equals what was sent, the effect returns
   * before clearing `isSyncing`; the next outside change is then swallowed:
   * the flag is cleared but the chips do not follow the URL.
   */
  lemma EchoLeavesLatchSet(s: SyncState, chips: seq<FilterChip>, chipsToParams: seq<FilterChip> -> string,
                           next: string, paramsToChips: string -> seq<FilterChip>)
    requires next != chipsToParams(chips)
    ensures var echoed := OnParams(OnReplace(s.(filters := chips), chips, chipsToParams),
                                   chipsToParams(chips), paramsToChips);
            var r := OnParams(echoed, next, paramsToChips);
            && echoed.isSyncing
            && r.filters == chips && r.prevParams == chipsToParams(chips) && !r.isSyncing
  {
  }

  // ---------------------------------------------------------------------------
  // The page component

  class ProjectsPage {
    const allProjects: seq<Project>
    var viewOptions: ViewOptions
    var filters: seq<FilterChip>
    var isSyncing: bool
    var prevParams: string

    function Sync(): SyncState
      reads this
    {
      SyncState(filters, isSyncing, prevParams)
    }

    constructor (projects: seq<Project>)
      ensures allProjects == projects
      ensures viewOptions == DefaultViewOptions && Sync() == InitialSync
    {
      allProjects := projects;
      viewOptions := DefaultViewOptions;
      filters := [];
      isSyncing := false;
      prevParams := "";
    }

    /** The search-parameter effect. */
    method OnSearchParams(currentParams: string, paramsToChips: string -> seq<FilterChip>)
      modifies this`filters, this`isSyncing, this`prevParams
      ensures Sync() == OnParams(old(Sync()), currentParams, paramsToChips)
    {
      if prevParams == currentParams {
        return;
      }
      if isSyncing {
        isSyncing := false;
        return;
      }
      prevParams := currentParams;
      filters := paramsToChips(currentParams);
    }

    /** Returns the parameter string navigated to. */
    method ReplaceUrlFromChips(chips: seq<FilterChip>, chipsToParams: seq<FilterChip> -> string)
      returns (search: string)
      modifies this`isSyncing, this`prevParams
      ensures Sync() == OnReplace(old(Sync()), chips, chipsToParams)
      ensures search == chipsToParams(chips)
    {
      var params := chipsToParams(chips);
      isSyncing := true;
      prevParams := params;
      search := params;
    }

    method RemoveFilter(key: string, value: string, chipsToParams: seq<FilterChip> -> string)
      returns (search: string)
      modifies this`filters, this`isSyncing, this`prevParams
      ensures filters == ChipsWithout(old(filters), key, value)
      ensures isSyncing && prevParams == chipsToParams(filters) && search == prevParams
    {
      var next := ChipsWithout(filters, key, value);
      filters := next;
      search := ReplaceUrlFromChips(next, chipsToParams);
    }

    method ApplyFilters(chips: seq<FilterChip>, chipsToParams: seq<FilterChip> -> string)
      returns (search: string)
      modifies this`filters, this`isSyncing, this`prevParams
      ensures filters == chips
      ensures isSyncing && prevParams == chipsToParams(chips) && search == prevParams
    {
      filters := chips;
      search := ReplaceUrlFromChips(chips, chipsToParams);
    }

    method SetViewOptions(options: ViewOptions)
      modifies this`viewOptions
      ensures viewOptions == options
    {
      viewOptions := options;
    }

    /** The list handed to the current view and the counts handed to the header. */
    method Render(nameLe: (string, string) -> bool) returns (shown: seq<Project>, counts: FilterCounts)
      ensures shown == Displayed(allProjects, filters, viewOptions, nameLe)
      ensures counts == Tally(allProjects)
    {
      shown := FilteredProjects(allProjects, filters, viewOptions, nameLe);
      counts := ComputeFilterCounts(allProjects);
    }
  }
}
