/**
 * The text a project card derives from its record: the status label, the
 * assignee's initials and the secondary line under the title.
 */
module Card {
  import opened Wrappers
  import opened Text
  import opened ProjectData
  import opened Seqs

  /** `statusConfig(status).label`; the status is the raw stored string, which may be outside the five. */
  function StatusLabel(status: string): (r: string)
    ensures status !in KnownStatusNames() ==> r == status
  {
    if status == "active" then "进行中"
    else if status == "planned" then "已计划"
    else if status == "backlog" then "积压中"
    else if status == "completed" then "已完成"
    else if status == "cancelled" then "已取消"
    else status
  }

  function KnownStatusNames(): set<string> {
    {"active", "planned", "backlog", "completed", "cancelled"}
  }

  /** Each of the five statuses has its own fixed label, none of them a status name. */
  lemma StatusLabelsDistinct(s: Status, t: Status)
    ensures StatusName(s) in KnownStatusNames()
    ensures StatusLabel(StatusName(s)) !in KnownStatusNames()
    ensures s != t ==> StatusLabel(StatusName(s)) != StatusLabel(StatusName(t))
  {
  }

  // ---------------------------------------------------------------------------
  // Initials

  /** `s.split(' ')`: the pieces between spaces, empty ones included; never an empty list. */
  function Split(s: string): (parts: seq<string>)
    ensures |parts| >= 1
  {
    if s == [] then [""]
    else
      var rest := Split(s[1..]);
      if s[0] == ' ' then [""] + rest else [[s[0]] + rest[0]] + rest[1..]
  }

  /** `parts.map((p) => p[0]).join('')`: an empty piece gives `undefined`, which joins as nothing. */
  function FirstChars(parts: seq<string>): string {
    if parts == [] then ""
    else (if parts[0] == "" then "" else [parts[0][0]]) + FirstChars(parts[1..])
  }

  /** The first character of every word, a word being a run of non-spaces; `atStart` says a word may begin at `s[0]`. */
  function WordStartsFrom(s: string, atStart: bool): string {
    if s == [] then ""
    else (if atStart && s[0] != ' ' then [s[0]] else "") + WordStartsFrom(s[1..], s[0] == ' ')
  }

  function WordStarts(s: string): string {
    WordStartsFrom(s, true)
  }

  /** Splitting on spaces and taking first characters finds exactly the word starts. */
  lemma {:induction false} FirstCharsOfSplit(s: string)
    ensures FirstChars(Split(s)) == WordStartsFrom(s, true)
    ensures FirstChars(Split(s)[1..]) == WordStartsFrom(s, false)
  {
    if s != [] {
      FirstCharsOfSplit(s[1..]);
      var rest := Split(s[1..]);
      if s[0] == ' ' {
        assert ([""] + rest)[1..] == rest;
      } else {
        var parts := [[s[0]] + rest[0]] + rest[1..];
        assert parts[1..] == rest[1..];
        assert parts[0][0] == s[0];
      }
    }
  }

  /** `.slice(0, 2)`. */
  function Take2(s: string): (r: string)
    ensures |r| <= 2 && |r| <= |s| && r == s[..|r|]
    ensures |s| >= 2 ==> |r| == 2
    ensures |s| < 2 ==> r == s
  {
    if |s| <= 2 then s else s[..2]
  }

  /** The avatar text of the first member, or none when there is no first member or it is empty. */
  function Initials(members: seq<string>): (r: Option<string>)
    ensures r.None? <==> members == [] || members[0] == ""
    ensures r.Some? ==> |r.value| <= 2
  {
    if members == [] || members[0] == "" then None
    else Some(Upper(Take2(FirstChars(Split(members[0])))))
  }

  /** The initials are the first two word starts of the first member, upper-cased. */
  lemma InitialsAreWordStarts(members: seq<string>)
    requires members != [] && members[0] != ""
    ensures Initials(members) == Some(Upper(Take2(WordStarts(members[0]))))
  {
    FirstCharsOfSplit(members[0]);
  }

  lemma InitialsOfFullName()
    ensures Initials(["Jo Li"]) == Some("JL")
  {
    InitialsAreWordStarts(["Jo Li"]);
    assert WordStartsFrom("i", false) == "";
    assert WordStartsFrom("Li", true) == "L";
    assert WordStartsFrom(" Li", false) == "L";
    assert WordStartsFrom("o Li", false) == "L";
    assert WordStartsFrom("Jo Li", true) == "JL";
    assert Upper("JL") == "JL";
  }

  /** Only the first two words count. */
  lemma InitialsOfThreeWords()
    ensures Initials(["a b c"]) == Some("AB")
  {
    InitialsAreWordStarts(["a b c"]);
    assert WordStartsFrom("c", true) == "c";
    assert WordStartsFrom(" c", false) == "c";
    assert WordStartsFrom("b c", true) == "bc";
    assert WordStartsFrom(" b c", false) == "bc";
    assert WordStartsFrom("a b c", true) == "abc";
    assert Take2("abc") == "ab";
    assert Upper("ab") == "AB";
  }

  // ---------------------------------------------------------------------------
  // Secondary line

  const Bullet := " • "

  /** The labels as the optional values they came from. */
  function Somes(xs: seq<string>): (r: seq<Option<string>>)
    ensures |r| == |xs|
  {
    if xs == [] then [] else [Some(xs[0])] + Somes(xs[1..])
  }

  /** `[a, b, c].filter(Boolean)`. */
  function PresentLabels(labels: seq<Option<string>>): (r: seq<string>)
    ensures |r| <= |labels|
  {
    if labels == [] then []
    else
      var rest := PresentLabels(labels[1..]);
      if Truthy(labels[0]) then [labels[0].value] + rest else rest
  }

  /**
   * Nothing is kept exactly when no label is truthy, and whatever is kept is a
   * non-empty label of the list.
   */
  lemma {:induction false} PresentLabelsWhich(labels: seq<Option<string>>)
    ensures PresentLabels(labels) == [] <==> forall i :: 0 <= i < |labels| ==> !Truthy(labels[i])
    ensures forall x :: x in PresentLabels(labels) ==> x != "" && Some(x) in labels
  {
    if labels != [] {
      PresentLabelsWhich(labels[1..]);
      assert forall i :: 1 <= i < |labels| ==> labels[i] == labels[1..][i - 1];
    }
  }

  /** The kept labels are the truthy entries, in the order of the list. */
  lemma {:induction false} PresentLabelsInOrder(labels: seq<Option<string>>)
    ensures SubsequenceOf(Somes(PresentLabels(labels)), labels)
  {
    if labels != [] {
      PresentLabelsInOrder(labels[1..]);
      PresentLabelsInOrderStep(labels);
    }
  }

  lemma PresentLabelsInOrderStep(labels: seq<Option<string>>)
    requires labels != []
    requires SubsequenceOf(Somes(PresentLabels(labels[1..])), labels[1..])
    ensures SubsequenceOf(Somes(PresentLabels(labels)), labels)
  {
    var rest := Somes(PresentLabels(labels[1..]));
    SubsequenceOfTail(rest, labels);
    if Truthy(labels[0]) {
      var kept := [labels[0].value] + PresentLabels(labels[1..]);
      assert PresentLabels(labels) == kept;
      assert kept[1..] == PresentLabels(labels[1..]);
    } else {
      assert PresentLabels(labels) == PresentLabels(labels[1..]);
    }
  }

  /** Each non-empty label is kept as many times as it occurs, and the empty one never. */
  lemma {:induction false} PresentLabelsCopies(labels: seq<Option<string>>)
    ensures forall x :: multiset(PresentLabels(labels))[x] == if x == "" then 0 else multiset(labels)[Some(x)]
  {
    if labels != [] {
      PresentLabelsCopies(labels[1..]);
      forall x
        ensures multiset(PresentLabels(labels))[x] == if x == "" then 0 else multiset(labels)[Some(x)]
      {
        PresentLabelsCopiesOf(labels, x);
      }
    }
  }

  lemma PresentLabelsCopiesOf(labels: seq<Option<string>>, x: string)
    requires labels != []
    requires multiset(PresentLabels(labels[1..]))[x] == if x == "" then 0 else multiset(labels[1..])[Some(x)]
    ensures multiset(PresentLabels(labels))[x] == if x == "" then 0 else multiset(labels)[Some(x)]
  {
    MultisetHeadTail(labels, Some(x));
    PresentLabelsHeadCount(labels, x);
  }

  /** The copies of `x` kept from a list: one for a truthy head equal to it, plus those kept from the tail. */
  lemma PresentLabelsHeadCount(labels: seq<Option<string>>, x: string)
    requires labels != []
    ensures multiset(PresentLabels(labels))[x]
            == (if Truthy(labels[0]) && labels[0].value == x then 1 else 0) + multiset(PresentLabels(labels[1..]))[x]
  {
    if Truthy(labels[0]) {
      var kept := [labels[0].value] + PresentLabels(labels[1..]);
      assert PresentLabels(labels) == kept;
      MultisetHeadTail(kept, x);
      assert kept[1..] == PresentLabels(labels[1..]);
    }
  }

  /** The line under a card's title: client, type and duration when any is set, else the tags. */
  function SecondaryLine(p: Project): (line: string)
    ensures Truthy(p.client) ==> StartsWith(line, p.client.value)
    ensures !Truthy(p.client) && !Truthy(p.typeLabel) && !Truthy(p.durationLabel) && p.tags != [] ==>
              StartsWith(line, p.tags[0])
  {
    var labels := [p.client, p.typeLabel, p.durationLabel];
    if Truthy(p.client) || Truthy(p.typeLabel) || Truthy(p.durationLabel) then
      var present := PresentLabels(labels);
      PresentLabelsWhich(labels);
      assert labels[0] == p.client && labels[1] == p.typeLabel && labels[2] == p.durationLabel;
      assert Truthy(p.client) ==> present[0] == p.client.value by {
        assert labels[0] == p.client;
      }
      JoinStartsWithFirst(present, Bullet);
      Join(present, Bullet)
    else if |p.tags| > 0 then
      JoinStartsWithFirst(p.tags, Bullet);
      Join(p.tags, Bullet)
    else ""
  }

  /**
   * Which source the line comes from: the present labels joined by the bullet,
   * else the tags joined by it, else nothing; and how long it is.
   */
  lemma SecondaryLineParts(p: Project)
    ensures var labels := PresentLabels([p.client, p.typeLabel, p.durationLabel]);
            && (labels != [] ==>
                  && SecondaryLine(p) == Join(labels, Bullet)
                  && |SecondaryLine(p)| == TotalLength(labels) + (|labels| - 1) * |Bullet|)
            && (labels == [] && p.tags != [] ==>
                  && SecondaryLine(p) == Join(p.tags, Bullet)
                  && |SecondaryLine(p)| == TotalLength(p.tags) + (|p.tags| - 1) * |Bullet|)
            && (labels == [] && p.tags == [] ==> SecondaryLine(p) == "")
  {
    var options := [p.client, p.typeLabel, p.durationLabel];
    var labels := PresentLabels(options);
    PresentLabelsWhich(options);
    assert options[0] == p.client && options[1] == p.typeLabel && options[2] == p.durationLabel;
    if labels != [] {
      JoinLength(labels, Bullet);
    } else if p.tags != [] {
      JoinLength(p.tags, Bullet);
    }
  }

  /** An empty label is dropped with its separator. */
  lemma EmptyLabelDropped()
    ensures PresentLabels([Some("Acme"), Some(""), Some("6 weeks")]) == ["Acme", "6 weeks"]
  {
    var options := [Some("Acme"), Some(""), Some("6 weeks")];
    assert options[1..] == [Some(""), Some("6 weeks")];
    assert options[1..][1..] == [Some("6 weeks")];
    assert PresentLabels([Some("6 weeks")]) == ["6 weeks"];
    assert PresentLabels([Some(""), Some("6 weeks")]) == ["6 weeks"];
  }

  lemma SecondaryLineFromLabels(p: Project)
    requires p.client == Some("Acme") && p.typeLabel == Some("") && p.durationLabel == Some("6 weeks")
    ensures SecondaryLine(p) == "Acme" + Bullet + "6 weeks"
  {
    var labels := [p.client, p.typeLabel, p.durationLabel];
    assert labels == [Some("Acme"), Some(""), Some("6 weeks")];
    EmptyLabelDropped();
    assert Truthy(p.client);
    assert SecondaryLine(p) == Join(["Acme", "6 weeks"], Bullet);
    assert ["Acme", "6 weeks"][1..] == ["6 weeks"];
    assert Join(["Acme", "6 weeks"], Bullet) == "Acme" + Bullet + "6 weeks";
  }

  lemma SecondaryLineFromTags(p: Project)
    requires p.client == None && p.typeLabel == None && p.durationLabel == None && p.tags == ["web", "ui"]
    ensures SecondaryLine(p) == "web" + Bullet + "ui"
  {
    assert p.tags[1..] == ["ui"];
    assert Join(p.tags, Bullet) == "web" + Bullet + "ui";
  }
}
