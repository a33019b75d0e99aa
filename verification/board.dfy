/**
 * The kanban board: one column per open status plus completed, cards moved
 * between columns by drag and drop or from a card's menu.
 */
module Board {
  import opened Wrappers
  import opened ProjectData
  import opened Seqs

  /** `COLUMN_ORDER`: cancelled projects have no column. */
  const ColumnOrder: seq<Status> := [Backlog, Planned, Active, Completed]

  /** The projects of one status, in list order. */
  function Column(items: seq<Project>, s: Status): (r: seq<Project>)
    ensures forall p :: p in r <==> p in items && p.status == s
    ensures |r| <= |items|
  {
    if items == [] then []
    else
      var last := items[|items| - 1];
      var front := Column(items[..|items| - 1], s);
      assert items == items[..|items| - 1] + [last];
      if last.status == s then front + [last] else front
  }

  /** A column keeps every copy of each project of its status, in the order of the list. */
  lemma {:induction false} ColumnKeepsOrderAndCopies(items: seq<Project>, s: Status)
    ensures SubsequenceOf(Column(items, s), items)
    ensures forall p :: multiset(Column(items, s))[p] == if p.status == s then multiset(items)[p] else 0
  {
    if items != [] {
      var front, last := items[..|items| - 1], items[|items| - 1];
      ColumnKeepsOrderAndCopies(front, s);
      assert items == front + [last];
      SubsequenceSnoc(Column(front, s), front, last);
    }
  }

  /** The column of a longer prefix: the next project joins its own status's column only. */
  lemma ColumnStep(items: seq<Project>, i: nat, s: Status)
    requires i < |items|
    ensures Column(items[..i + 1], s)
            == if items[i].status == s then Column(items[..i], s) + [items[i]] else Column(items[..i], s)
  {
    assert items[..i + 1][..i] == items[..i];
  }

  /** Every project is in exactly one status, so the columns and the cancelled ones add up to the list. */
  lemma {:induction false} ColumnSizes(items: seq<Project>)
    ensures |Column(items, Backlog)| + |Column(items, Planned)| + |Column(items, Active)|
            + |Column(items, Completed)| == |items| - |Column(items, Cancelled)|
  {
    if items != [] {
      ColumnSizes(items[..|items| - 1]);
    }
  }

  /** `p.id === id ? { ...p, status } : p` over the list. */
  function SetStatus(items: seq<Project>, id: string, status: Status): (r: seq<Project>)
    ensures |r| == |items|
    ensures forall i :: 0 <= i < |items| && items[i].id != id ==> r[i] == items[i]
    ensures forall i :: 0 <= i < |items| && items[i].id == id ==> r[i] == items[i].(status := status)
  {
    seq(|items|, i requires 0 <= i < |items| =>
      if items[i].id == id then items[i].(status := status) else items[i])
  }

  /** After a move, the moved cards are in the target column and in no other. */
  lemma MovedCardsChangeColumn(items: seq<Project>, id: string, status: Status, other: Status)
    requires other != status
    ensures var r := SetStatus(items, id, status);
            && (forall i :: 0 <= i < |items| && items[i].id == id ==> items[i].(status := status) in Column(r, status))
            && (forall p :: p in Column(r, other) ==> p.id != id)
  {
    var r := SetStatus(items, id, status);
    forall i | 0 <= i < |items| && items[i].id == id
      ensures items[i].(status := status) in Column(r, status)
    {
      assert r[i] == items[i].(status := status);
    }
  }

  /** `for (const s of COLUMN_ORDER) m.set(s, [])`: one empty column per column status. */
  method EmptyColumns() returns (m: map<Status, seq<Project>>)
    ensures m.Keys == set s | s in ColumnOrder
    ensures forall s :: s in m ==> m[s] == []
  {
    m := map[];
    for k := 0 to |ColumnOrder|
      invariant m.Keys == set s | s in ColumnOrder[..k]
      invariant forall s :: s in m ==> m[s] == []
    {
      m := m[ColumnOrder[k] := []];
    }
    assert ColumnOrder[..|ColumnOrder|] == ColumnOrder;
  }

  /** Pushing card `i` onto its column turns the columns of the first `i` cards into those of the first `i + 1`. */
  lemma PushKeepsColumns(items: seq<Project>, i: nat, m: map<Status, seq<Project>>)
    requires i < |items|
    requires forall s :: s in m ==> m[s] == Column(items[..i], s)
    ensures var p := items[i];
            var next := if p.status in m then m[p.status := m[p.status] + [p]] else m;
            && next.Keys == m.Keys
            && forall s :: s in next ==> next[s] == Column(items[..i + 1], s)
  {
    forall s | s in m
      ensures Column(items[..i + 1], s) == if items[i].status == s then m[s] + [items[i]] else m[s]
    {
      ColumnStep(items, i, s);
    }
  }

  class ProjectBoard {
    var items: seq<Project>
    var draggingId: Option<string>

    constructor (projects: seq<Project>)
      ensures items == projects && draggingId == None
    {
      items := projects;
      draggingId := None;
    }

    /** A new list from the parent replaces the cards. */
    method ReceiveProjects(projects: seq<Project>)
      modifies this`items
      ensures items == projects
    {
      items := projects;
    }

    /** The `groups` memo: four empty columns, each card pushed onto the column of its status. */
    method Groups() returns (m: map<Status, seq<Project>>)
      ensures m.Keys == set s | s in ColumnOrder
      ensures forall s :: s in m ==> m[s] == Column(items, s)
    {
      m := EmptyColumns();
      for i := 0 to |items|
        invariant m.Keys == set s | s in ColumnOrder
        invariant forall s :: s in m ==> m[s] == Column(items[..i], s)
      {
        var p := items[i];
        PushKeepsColumns(items, i, m);
        if p.status in m {
          m := m[p.status := m[p.status] + [p]];
        }
      }
      assert items[..|items|] == items;
    }

    method DragStart(id: string)
      modifies this`draggingId
      ensures draggingId == Some(id)
    {
      draggingId := Some(id);
    }

    method DragEnd()
      modifies this`draggingId
      ensures draggingId == None
    {
      draggingId := None;
    }

    /** `onDropTo(status)` with the id carried by the drag; an empty id is ignored. */
    method DropTo(status: Status, id: string)
      modifies this`items, this`draggingId
      ensures id == "" ==> items == old(items) && draggingId == old(draggingId)
      ensures id != "" ==> items == SetStatus(old(items), id, status) && draggingId == None
    {
      if id == "" {
        return;
      }
      draggingId := None;
      items := SetStatus(items, id, status);
    }

    /** The card menu's "move to" entry for one of the four columns. */
    method MoveCardTo(cardId: string, status: Status)
      requires status in ColumnOrder
      modifies this`items
      ensures items == SetStatus(old(items), cardId, status)
    {
      items := SetStatus(items, cardId, status);
    }
  }
}
