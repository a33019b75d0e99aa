/**
 * The project record of the dashboard and the filter-count tally that the
 * header menus display next to each status, priority, tag and member bucket.
 * Dates are whole calendar-day numbers (day 0 is 1970-01-01).
 */
module ProjectData {
  import opened Wrappers
  import opened Text

  datatype Status = Backlog | Planned | Active | Cancelled | Completed
  datatype Priority = Urgent | High | Medium | Low
  datatype TaskStatus = Todo | InProgress | Done

  datatype Task = Task(
    id: string,
    name: string,
    assignee: string,
    status: TaskStatus,
    startDate: int,
    endDate: int)

  datatype Project = Project(
    id: string,
    name: string,
    taskCount: int,
    progress: int,
    startDate: int,
    endDate: int,
    status: Status,
    priority: Priority,
    tags: seq<string>,
    members: seq<string>,
    client: Option<string>,
    typeLabel: Option<string>,
    durationLabel: Option<string>,
    tasks: seq<Task>)

  /** The lower-case wire name of a status, as stored and as used in filter chips. */
  function StatusName(s: Status): string {
    match s
    case Backlog => "backlog"
    case Planned => "planned"
    case Active => "active"
    case Cancelled => "cancelled"
    case Completed => "completed"
  }

  function PriorityName(p: Priority): string {
    match p
    case Urgent => "urgent"
    case High => "high"
    case Medium => "medium"
    case Low => "low"
  }

  /** The bound the API's project schema puts on `progress`. */
  predicate ProgressInApiRange(p: Project) { 0 <= p.progress <= 100 }

  // ---------------------------------------------------------------------------
  // Filter counts

  datatype FilterCounts = FilterCounts(
    status: map<Status, nat>,
    priority: map<Priority, nat>,
    tags: map<string, nat>,
    members: map<string, nat>)

  const EmptyCounts := FilterCounts(map[], map[], map[], map[])

  const NoMemberKey := "no-member"
  const CurrentKey := "current"
  const ZhangsanKey := "zhangsan"
  /** The one member name that has a bucket of its own. */
  const ZhangsanName := "张三"

  /** A missing key reads as zero, as `(m[k] || 0)` does. */
  function Get<K>(m: map<K, nat>, k: K): nat {
    if k in m then m[k] else 0
  }

  function Inc<K(!new)>(m: map<K, nat>, k: K): (r: map<K, nat>)
    ensures r.Keys == m.Keys + {k}
    ensures Get(r, k) == Get(m, k) + 1
    ensures forall k' :: k' != k ==> Get(r, k') == Get(m, k')
  {
    m[k := Get(m, k) + 1]
  }

  predicate HasZhangsan(members: seq<string>) {
    exists m :: m in members && Lower(m) == ZhangsanName
  }

  /** The inner loop over one project's tags, written as the fold it performs. */
  function CountTags(m: map<string, nat>, tags: seq<string>): map<string, nat> {
    if tags == [] then m
    else Inc(CountTags(m, tags[..|tags| - 1]), Lower(tags[|tags| - 1]))
  }

  function CountMembers(m: map<string, nat>, members: seq<string>): map<string, nat> {
    var m1 := if |members| == 0 then Inc(m, NoMemberKey) else m;
    var m2 := if |members| > 0 then Inc(m1, CurrentKey) else m1;
    if HasZhangsan(members) then Inc(m2, ZhangsanKey) else m2
  }

  /** One iteration of the outer loop of `computeFilterCounts`. */
  function CountProject(c: FilterCounts, p: Project): FilterCounts {
    FilterCounts(
      Inc(c.status, p.status),
      Inc(c.priority, p.priority),
      CountTags(c.tags, p.tags),
      CountMembers(c.members, p.members))
  }

  /** The tally of a list, one project at a time from the front. */
  function Tally(xs: seq<Project>): FilterCounts {
    if xs == [] then EmptyCounts
    else CountProject(Tally(xs[..|xs| - 1]), xs[|xs| - 1])
  }

  /** The last project of a prefix is counted on top of the shorter prefix. */
  lemma TallyStep(list: seq<Project>, i: nat)
    requires i < |list|
    ensures Tally(list[..i + 1]) == CountProject(Tally(list[..i]), list[i])
  {
    assert list[..i + 1][..i] == list[..i];
  }

  /** The inner `for (const t of p.tags)` loop, bumping the lower-cased tag in place. */
  method CountTagsInto(m: map<string, nat>, tags: seq<string>) returns (r: map<string, nat>)
    ensures r == CountTags(m, tags)
  {
    r := m;
    var j := 0;
    while j < |tags|
      invariant 0 <= j <= |tags|
      invariant r == CountTags(m, tags[..j])
    {
      assert tags[..j + 1][..j] == tags[..j];
      var id := Lower(tags[j]);
      r := Inc(r, id);
      j := j + 1;
    }
    assert tags[..j] == tags;
  }

  /** `computeFilterCounts`: the loop over projects, bumping map entries in place. */
  method ComputeFilterCounts(list: seq<Project>) returns (res: FilterCounts)
    ensures res == Tally(list)
    ensures list == [] ==> res == EmptyCounts
  {
    var status: map<Status, nat> := map[];
    var priority: map<Priority, nat> := map[];
    var tags: map<string, nat> := map[];
    var members: map<string, nat> := map[];
    var i := 0;
    assert list[..i] == [];
    while i < |list|
      invariant 0 <= i <= |list|
      invariant FilterCounts(status, priority, tags, members) == Tally(list[..i])
    {
      var p := list[i];
      TallyStep(list, i);
      ghost var m0 := members;
      status := Inc(status, p.status);
      priority := Inc(priority, p.priority);
      tags := CountTagsInto(tags, p.tags);
      if |p.members| == 0 {
        members := Inc(members, NoMemberKey);
      }
      if |p.members| > 0 {
        members := Inc(members, CurrentKey);
      }
      if HasZhangsan(p.members) {
        members := Inc(members, ZhangsanKey);
      }
      assert members == CountMembers(m0, p.members);
      i := i + 1;
    }
    assert list[..i] == list;
    res := FilterCounts(status, priority, tags, members);
  }

  // ---------------------------------------------------------------------------
  // What the tally means

  /** The number of projects in `xs` whose status is `s`. */
  function NumWithStatus(xs: seq<Project>, s: Status): nat {
    if xs == [] then 0
    else NumWithStatus(xs[1..], s) + (if xs[0].status == s then 1 else 0)
  }

  function NumWithPriority(xs: seq<Project>, q: Priority): nat {
    if xs == [] then 0
    else NumWithPriority(xs[1..], q) + (if xs[0].priority == q then 1 else 0)
  }

  /** How many of `tags`, lower-cased, equal `t`. */
  function TagOccurrences(tags: seq<string>, t: string): nat {
    if tags == [] then 0
    else TagOccurrences(tags[1..], t) + (if Lower(tags[0]) == t then 1 else 0)
  }

  function TagOccurrencesIn(xs: seq<Project>, t: string): nat {
    if xs == [] then 0 else TagOccurrences(xs[0].tags, t) + TagOccurrencesIn(xs[1..], t)
  }

  function SumStatuses(m: map<Status, nat>): nat {
    Get(m, Backlog) + Get(m, Planned) + Get(m, Active) + Get(m, Cancelled) + Get(m, Completed)
  }

  function SumPriorities(m: map<Priority, nat>): nat {
    Get(m, Urgent) + Get(m, High) + Get(m, Medium) + Get(m, Low)
  }

  lemma {:induction false} NumWithStatusSnoc(xs: seq<Project>, p: Project, s: Status)
    ensures NumWithStatus(xs + [p], s) == NumWithStatus(xs, s) + (if p.status == s then 1 else 0)
  {
    if xs != [] {
      assert (xs + [p])[1..] == xs[1..] + [p];
      NumWithStatusSnoc(xs[1..], p, s);
    } else {
      assert (xs + [p])[1..] == [];
    }
  }

  lemma {:induction false} NumWithPrioritySnoc(xs: seq<Project>, p: Project, q: Priority)
    ensures NumWithPriority(xs + [p], q) == NumWithPriority(xs, q) + (if p.priority == q then 1 else 0)
  {
    if xs != [] {
      assert (xs + [p])[1..] == xs[1..] + [p];
      NumWithPrioritySnoc(xs[1..], p, q);
    } else {
      assert (xs + [p])[1..] == [];
    }
  }

  /** The status bucket of `s` holds exactly the number of projects with status `s`. */
  lemma {:induction false} StatusCountIsNumber(xs: seq<Project>, s: Status)
    ensures Get(Tally(xs).status, s) == NumWithStatus(xs, s)
  {
    if xs != [] {
      var init := xs[..|xs| - 1];
      StatusCountIsNumber(init, s);
      assert init + [xs[|xs| - 1]] == xs;
      NumWithStatusSnoc(init, xs[|xs| - 1], s);
    }
  }

  lemma {:induction false} PriorityCountIsNumber(xs: seq<Project>, q: Priority)
    ensures Get(Tally(xs).priority, q) == NumWithPriority(xs, q)
  {
    if xs != [] {
      var init := xs[..|xs| - 1];
      PriorityCountIsNumber(init, q);
      assert init + [xs[|xs| - 1]] == xs;
      NumWithPrioritySnoc(init, xs[|xs| - 1], q);
    }
  }

  /** Every project is counted under exactly one status. */
  lemma {:induction false} StatusCountsSumToLength(xs: seq<Project>)
    ensures SumStatuses(Tally(xs).status) == |xs|
  {
    if xs != [] {
      var init := xs[..|xs| - 1];
      StatusCountsSumToLength(init);
      var m := Tally(init).status;
      var s := xs[|xs| - 1].status;
      assert Tally(xs).status == Inc(m, s);
      assert SumStatuses(Inc(m, s)) == SumStatuses(m) + 1 by {
        match s
        case Backlog =>
        case Planned =>
        case Active =>
        case Cancelled =>
        case Completed =>
      }
    }
  }

  /** Every project is counted under exactly one priority. */
  lemma {:induction false} PriorityCountsSumToLength(xs: seq<Project>)
    ensures SumPriorities(Tally(xs).priority) == |xs|
  {
    if xs != [] {
      var init := xs[..|xs| - 1];
      PriorityCountsSumToLength(init);
      var m := Tally(init).priority;
      var q := xs[|xs| - 1].priority;
      assert Tally(xs).priority == Inc(m, q);
      assert SumPriorities(Inc(m, q)) == SumPriorities(m) + 1 by {
        match q
        case Urgent =>
        case High =>
        case Medium =>
        case Low =>
      }
    }
  }

  /** Only statuses that occur get a key. */
  lemma {:induction false} StatusKeysOccur(xs: seq<Project>)
    ensures forall s :: s in Tally(xs).status ==> Get(Tally(xs).status, s) > 0
  {
    if xs != [] {
      StatusKeysOccur(xs[..|xs| - 1]);
    }
  }

  lemma {:induction false} CountTagsIs(m: map<string, nat>, tags: seq<string>, t: string)
    ensures Get(CountTags(m, tags), t) == Get(m, t) + TagOccurrences(tags, t)
  {
    if tags != [] {
      var init := tags[..|tags| - 1];
      CountTagsIs(m, init, t);
      TagOccurrencesSnoc(init, tags[|tags| - 1], t);
      assert init + [tags[|tags| - 1]] == tags;
    }
  }

  lemma {:induction false} TagOccurrencesSnoc(tags: seq<string>, x: string, t: string)
    ensures TagOccurrences(tags + [x], t) == TagOccurrences(tags, t) + (if Lower(x) == t then 1 else 0)
  {
    if tags != [] {
      assert (tags + [x])[1..] == tags[1..] + [x];
      TagOccurrencesSnoc(tags[1..], x, t);
    } else {
      assert (tags + [x])[1..] == [];
    }
  }

  lemma {:induction false} TagOccurrencesInSnoc(xs: seq<Project>, p: Project, t: string)
    ensures TagOccurrencesIn(xs + [p], t) == TagOccurrencesIn(xs, t) + TagOccurrences(p.tags, t)
  {
    if xs != [] {
      assert (xs + [p])[1..] == xs[1..] + [p];
      TagOccurrencesInSnoc(xs[1..], p, t);
    } else {
      assert (xs + [p])[1..] == [];
    }
  }

  /**
   * The tag bucket of `t` counts every occurrence of a tag whose lower-case
   * form is `t`: a project tagged both `UI` and `ui` adds two to `ui`.
   */
  lemma {:induction false} TagCountIsOccurrences(xs: seq<Project>, t: string)
    ensures Get(Tally(xs).tags, t) == TagOccurrencesIn(xs, t)
  {
    if xs != [] {
      var init := xs[..|xs| - 1];
      var p := xs[|xs| - 1];
      TagCountIsOccurrences(init, t);
      CountTagsIs(Tally(init).tags, p.tags, t);
      TagOccurrencesInSnoc(init, p, t);
      assert init + [p] == xs;
    }
  }

  /**
   * The member buckets: each project is either `no-member` or `current`,
   * and the `zhangsan` bucket only ever counts projects that have members.
   */
  lemma {:induction false} MemberBuckets(xs: seq<Project>)
    ensures Get(Tally(xs).members, NoMemberKey) + Get(Tally(xs).members, CurrentKey) == |xs|
    ensures Get(Tally(xs).members, ZhangsanKey) <= Get(Tally(xs).members, CurrentKey)
    ensures Tally(xs).members.Keys <= {NoMemberKey, CurrentKey, ZhangsanKey}
  {
    if xs != [] {
      MemberBuckets(xs[..|xs| - 1]);
    }
  }
}
