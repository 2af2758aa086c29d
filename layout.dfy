/** The editors of the form panel that work on plain lists: the section
    manager (drag-and-drop reordering and the include/exclude checkbox),
    the tag lists for languages and hobbies, the project tech picker, and
    the grouping of the header backgrounds for the background picker. */
module Layout {
  import opened Wrappers
  import opened Types
  import opened Lists
  import opened Constants
  import JsString

  // ---------------------------------------------------------------------
  // Section order
  // ---------------------------------------------------------------------

  /** `s.indexOf(x)`: the first index holding `x`, or -1. */
  function IndexOf<T(==)>(s: seq<T>, x: T): (r: int)
    ensures r == -1 <==> x !in s
    ensures r != -1 ==> 0 <= r < |s| && s[r] == x && x !in s[..r]
  {
    if |s| == 0 then -1
    else if s[0] == x then 0
    else
      var i := IndexOf(s[1..], x);
      assert i != -1 ==> s[..i + 1] == [s[0]] + s[1..][..i];
      if i == -1 then -1 else i + 1
  }

  /** The order after a drop: with a dragged and a hovered key that
      differ, the dragged key is taken out of its place and put back at the
      hovered key's index; otherwise the order is left as it was. */
  function DragResult(order: seq<SectionKey>, dragged: Option<SectionKey>, over: Option<SectionKey>): seq<SectionKey>
    requires dragged.Some? ==> dragged.value in order
    requires over.Some? ==> over.value in order
  {
    if dragged.Some? && over.Some? && dragged.value != over.value then
      Move(order, IndexOf(order, dragged.value), IndexOf(order, over.value))
    else order
  }

  /** Entry `j` after moving the entry at `from` to `to`. */
  lemma MoveAt<T>(s: seq<T>, from: nat, to: nat, j: nat)
    requires from < |s| && to < |s| && j < |s|
    ensures Move(s, from, to)[j] ==
      if j == to then s[from]
      else if from < to && from <= j < to then s[j + 1]
      else if to < from && to < j <= from then s[j - 1]
      else s[j]
  {
    var t := RemoveAt(s, from);
    var r := Move(s, from, to);
    assert r == t[..to] + [s[from]] + t[to..];
    if j < to {
      assert r[j] == t[j];
    } else if j > to {
      assert r[j] == t[j - 1];
    }
    if j < to || j > to {
      var k := if j < to then j else j - 1;
      if k < from {
        assert t[k] == t[..from][k] == s[..from][k];
      } else {
        assert t[k] == t[from..][k - from] == s[from + 1..][k - from];
      }
    }
  }

  /** `handleDragEnd`: `[...sectionOrder]` copied into an array, then
      `splice(draggedIndex, 1)` followed by `splice(targetIndex, 0,
      removed)`, which amounts to shifting the entries between the two
      indices by one place and writing the dragged key at the target's
      index. The handle is only shown, and a key only becomes the dragged
      or hovered one, while the key is in the order. */
  method HandleDragEnd(sectionOrder: seq<SectionKey>, dragged: Option<SectionKey>, over: Option<SectionKey>)
    returns (newOrder: seq<SectionKey>)
    requires dragged.Some? ==> dragged.value in sectionOrder
    requires over.Some? ==> over.value in sectionOrder
    ensures newOrder == DragResult(sectionOrder, dragged, over)
  {
    newOrder := sectionOrder;
    if dragged.Some? && over.Some? && dragged.value != over.value {
      var a := new SectionKey[|sectionOrder|](i requires 0 <= i < |sectionOrder| => sectionOrder[i]);
      assert a[..] == sectionOrder;
      MoveInPlace(a, IndexOf(sectionOrder, dragged.value), IndexOf(sectionOrder, over.value));
      newOrder := a[..];
    }
  }

  /** The two splices on the copied array. */
  method MoveInPlace<T>(a: array<T>, from: nat, to: nat)
    requires from < a.Length && to < a.Length
    modifies a
    ensures a[..] == Move(old(a[..]), from, to)
  {
    ghost var s := a[..];
    var removed := a[from];
    if from < to {
      ShiftDown(a, from, to);
    } else if to < from {
      ShiftUp(a, to, from);
    }
    a[to] := removed;
    forall j | 0 <= j < |s| ensures a[j] == Move(s, from, to)[j] {
      MoveAt(s, from, to, j);
    }
  }

  /** `splice(from, 1)` followed by `splice(to, 0, ...)` for `from < to`:
      the entries after `from` up to `to` move one place towards the front. */
  method ShiftDown<T>(a: array<T>, from: nat, to: nat)
    requires from < to < a.Length
    modifies a
    ensures forall j | 0 <= j < a.Length && !(from <= j < to) :: a[j] == old(a[j])
    ensures forall j | from <= j < to :: a[j] == old(a[j + 1])
  {
    for k := from to to
      invariant forall j | 0 <= j < a.Length && !(from <= j < k) :: a[j] == old(a[j])
      invariant forall j | from <= j < k :: a[j] == old(a[j + 1])
    {
      a[k] := a[k + 1];
    }
  }

  /** The same splices for `to < from`: the entries from `to` up to before
      `from` move one place towards the back. */
  method ShiftUp<T>(a: array<T>, to: nat, from: nat)
    requires to < from < a.Length
    modifies a
    ensures forall j | 0 <= j < a.Length && !(to < j <= from) :: a[j] == old(a[j])
    ensures forall j | to < j <= from :: a[j] == old(a[j - 1])
  {
    var k := from;
    while k > to
      invariant to <= k <= from
      invariant forall j | 0 <= j < a.Length && !(k < j <= from) :: a[j] == old(a[j])
      invariant forall j | k < j <= from :: a[j] == old(a[j - 1])
    {
      a[k] := a[k - 1];
      k := k - 1;
    }
  }

  /** A drop with two different keys is a permutation of the order that
      puts the dragged key at the hovered key's former index and keeps the
      other keys in their relative order. */
  lemma DragEndMoves(order: seq<SectionKey>, dragged: SectionKey, over: SectionKey)
    requires dragged in order && over in order && dragged != over
    ensures |DragResult(order, Some(dragged), Some(over))| == |order|
    ensures multiset(DragResult(order, Some(dragged), Some(over))) == multiset(order)
    ensures DragResult(order, Some(dragged), Some(over))[IndexOf(order, over)] == dragged
    ensures RemoveAt(DragResult(order, Some(dragged), Some(over)), IndexOf(order, over))
      == RemoveAt(order, IndexOf(order, dragged))
  {
    MoveProperties(order, IndexOf(order, dragged), IndexOf(order, over));
  }

  /** With nothing dragged, nothing hovered, or the key dropped onto
      itself, the order is left as it was. */
  lemma DragEndNoOp(order: seq<SectionKey>, dragged: Option<SectionKey>, over: Option<SectionKey>)
    requires dragged.Some? ==> dragged.value in order
    requires over.Some? ==> over.value in order
    requires dragged.None? || over.None? || dragged == over
    ensures DragResult(order, dragged, over) == order
  {
  }

  /** `handleToggleSection`: an included section is removed, every copy of
      it; an excluded one is appended at the end. */
  function HandleToggleSection(order: seq<SectionKey>, key: SectionKey): (r: seq<SectionKey>)
    ensures key in r <==> key !in order
    ensures forall k | k != key :: k in r <==> k in order
    ensures key in order ==> IsSubsequence(r, order)
    ensures key !in order ==> r == order + [key]
  {
    RemoveAllKeeps(order, key);
    Toggle(order, key)
  }

  /** Toggling a section twice restores the set of included sections,
      and a duplicate-free order stays duplicate-free. */
  lemma ToggleSectionTwice(order: seq<SectionKey>, key: SectionKey)
    ensures forall k :: k in HandleToggleSection(HandleToggleSection(order, key), key) <==> k in order
    ensures NoDups(order) ==> NoDups(HandleToggleSection(order, key))
  {
    if NoDups(order) {
      ToggleNoDups(order, key);
    }
  }

  // ---------------------------------------------------------------------
  // Tag lists
  // ---------------------------------------------------------------------

  /** `TagListSection.handleAdd`: a non-empty tag not yet in the list is
      appended; anything else changes nothing. */
  function HandleAddTag(items: seq<string>, tag: string): (r: seq<string>)
    ensures tag == "" || tag in items ==> r == items
    ensures tag != "" && tag !in items ==> r == items + [tag]
    ensures NoDups(items) ==> NoDups(r)
  {
    if tag != "" && tag !in items then items + [tag] else items
  }

  /** `TagListSection.handleRemove`: every copy of the tag goes, and the
      other tags keep their order and their number of copies. */
  function HandleRemoveTag(items: seq<string>, tag: string): (r: seq<string>)
    ensures tag !in r
    ensures IsSubsequence(r, items)
    ensures forall t | t != tag :: multiset(r)[t] == multiset(items)[t]
  {
    RemoveAllKeeps(items, tag);
    RemoveAll(items, tag)
  }

  /** Removing a tag just added gives back the list. */
  lemma AddThenRemoveTag(items: seq<string>, tag: string)
    requires tag != "" && tag !in items
    ensures HandleRemoveTag(HandleAddTag(items, tag), tag) == items
  {
    RemoveAllSnoc(items, tag);
  }

  lemma {:induction false} RemoveAllSnoc<T(!new)>(s: seq<T>, x: T)
    requires x !in s
    ensures RemoveAll(s + [x], x) == s
    decreases |s|
  {
    if |s| == 0 {
      assert [x][1..] == [];
    } else {
      assert (s + [x])[1..] == s[1..] + [x];
      RemoveAllSnoc(s[1..], x);
      assert s == [s[0]] + s[1..];
    }
  }

  // ---------------------------------------------------------------------
  // Project tech picker
  // ---------------------------------------------------------------------

  /** `allSkills.filter(s => !item.tech.includes(s) &&
      s.toLowerCase().includes(techSearch.toLowerCase()))` */
  function AvailableTech(allSkills: seq<string>, tech: seq<string>, search: string): (r: seq<string>)
    ensures forall s :: s in r <==>
      s in allSkills && s !in tech && JsString.Contains(JsString.ToLower(s), JsString.ToLower(search))
    ensures IsSubsequence(r, allSkills)
  {
    if |allSkills| == 0 then []
    else
      var s := allSkills[0];
      var rest := AvailableTech(allSkills[1..], tech, search);
      if s !in tech && JsString.Contains(JsString.ToLower(s), JsString.ToLower(search)) then
        [s] + rest
      else
        SubsequenceSkip(rest, allSkills[1..], s);
        assert [s] + allSkills[1..] == allSkills;
        rest
  }

  /** The empty search offers every catalog name the project does not use
      yet. */
  lemma EmptySearchOffersAll(allSkills: seq<string>, tech: seq<string>)
    ensures forall s :: s in AvailableTech(allSkills, tech, "") <==> s in allSkills && s !in tech
  {
    forall s: string ensures JsString.Contains(JsString.ToLower(s), JsString.ToLower("")) {
      assert JsString.StartsWith(JsString.ToLower(s)[0..], "");
    }
  }

  /** `addTech(tech)`: `[...item.tech, tech]`. */
  function AddTech(tech: seq<string>, t: string): (r: seq<string>)
    ensures |r| == |tech| + 1 && r[..|tech|] == tech && r[|tech|] == t
    ensures forall u :: u in r <==> u in tech || u == t
    ensures NoDups(tech) && t !in tech ==> NoDups(r)
  {
    NoDupsSnocIf(tech, t);
    tech + [t]
  }

  lemma NoDupsSnocIf(tech: seq<string>, t: string)
    ensures NoDups(tech) && t !in tech ==> NoDups(tech + [t])
  {
    if NoDups(tech) && t !in tech {
      NoDupsSnoc(tech, t);
    }
  }

  /** Removing a name that was just added to a list without it gives the
      list back. */
  lemma AddThenRemoveTech(tech: seq<string>, t: string)
    requires t !in tech
    ensures RemoveTech(AddTech(tech, t), t) == tech
  {
    RemoveAllSnoc(tech, t);
  }

  /** `removeTech(tech)`: `item.tech.filter(t => t !== tech)`. */
  function RemoveTech(tech: seq<string>, t: string): (r: seq<string>)
    ensures t !in r && IsSubsequence(r, tech)
    ensures forall u | u != t :: u in r <==> u in tech
  {
    RemoveAllKeeps(tech, t);
    RemoveAll(tech, t)
  }

  /** Adding a name the picker offers keeps the project's list free of
      repeats, and so does removing one. */
  lemma PickerKeepsDistinct(allSkills: seq<string>, tech: seq<string>, search: string, t: string)
    requires NoDups(tech) && t in AvailableTech(allSkills, tech, search)
    ensures NoDups(AddTech(tech, t))
    ensures NoDups(RemoveTech(tech, t))
  {
    RemoveAllNoDups(tech, t);
  }

  // ---------------------------------------------------------------------
  // Background groups
  // ---------------------------------------------------------------------

  /** `{ key, name }`, one entry of the background picker. */
  datatype BackgroundChoice = BackgroundChoice(key: string, name: string)

  /** One group of the picker, as an entry of the accumulator object. */
  datatype BackgroundGroup = BackgroundGroup(group: string, members: seq<BackgroundChoice>)

  /** `acc[g] || []` */
  function GroupMembers(gs: seq<BackgroundGroup>, g: string): seq<BackgroundChoice>
  {
    if |gs| == 0 then []
    else if gs[0].group == g then gs[0].members
    else GroupMembers(gs[1..], g)
  }

  /** `(acc[g] = acc[g] || []).push(x)`: a known group gets `x` appended in
      place, a new group is added at the end. */
  function AddToGroup(gs: seq<BackgroundGroup>, g: string, x: BackgroundChoice): (r: seq<BackgroundGroup>)
    ensures GroupMembers(r, g) == GroupMembers(gs, g) + [x]
    ensures forall h | h != g :: GroupMembers(r, h) == GroupMembers(gs, h)
  {
    if |gs| == 0 then [BackgroundGroup(g, [x])]
    else if gs[0].group == g then [gs[0].(members := gs[0].members + [x])] + gs[1..]
    else [gs[0]] + AddToGroup(gs[1..], g, x)
  }

  /** The accumulator once every entry of `bgs` has been added. */
  function Groups(bgs: seq<(string, Background)>): seq<BackgroundGroup>
  {
    if |bgs| == 0 then []
    else
      var last := bgs[|bgs| - 1];
      AddToGroup(Groups(bgs[..|bgs| - 1]), last.1.group, Choice(last))
  }

  /** `Object.entries(HEADER_BACKGROUNDS).reduce(...)` */
  method BackgroundGroups(bgs: seq<(string, Background)>) returns (acc: seq<BackgroundGroup>)
    ensures acc == Groups(bgs)
  {
    acc := [];
    for i := 0 to |bgs|
      invariant acc == Groups(bgs[..i])
    {
      assert bgs[..i + 1][..i] == bgs[..i];
      var (key, value) := bgs[i];
      acc := AddToGroup(acc, value.group, BackgroundChoice(key, value.name));
    }
    assert bgs[..|bgs|] == bgs;
  }

  /** The picker entry of a catalog entry. */
  function Choice(e: (string, Background)): BackgroundChoice
  {
    BackgroundChoice(e.0, e.1.name)
  }

  /** The reference reading of a group: the entries of `bgs` in group `g`,
      in catalog order. */
  function GroupOf(bgs: seq<(string, Background)>, g: string): (r: seq<BackgroundChoice>)
    ensures forall c :: c in r <==> exists i | 0 <= i < |bgs| :: bgs[i].1.group == g && c == Choice(bgs[i])
  {
    if |bgs| == 0 then []
    else
      var n := |bgs| - 1;
      var rest := GroupOf(bgs[..n], g);
      assert forall i | 0 <= i < n :: bgs[..n][i] == bgs[i];
      if bgs[n].1.group == g then rest + [Choice(bgs[n])] else rest
  }

  /** The reduce builds, for every group, exactly its reference reading. */
  lemma {:induction false} GroupsMembers(bgs: seq<(string, Background)>, g: string)
    ensures GroupMembers(Groups(bgs), g) == GroupOf(bgs, g)
    decreases |bgs|
  {
    if |bgs| > 0 {
      GroupsMembers(bgs[..|bgs| - 1], g);
    }
  }

  /** Every background key shows up in its own group, and, the keys being
      distinct, in no other. */
  lemma EachKeyInItsGroup(bgs: seq<(string, Background)>, i: nat, g: string)
    requires i < |bgs|
    ensures Choice(bgs[i]) in GroupMembers(Groups(bgs), bgs[i].1.group)
    ensures NoDups(BackgroundKeys(bgs)) && g != bgs[i].1.group ==>
      forall c | c in GroupMembers(Groups(bgs), g) :: c.key != bgs[i].0
  {
    GroupsMembers(bgs, bgs[i].1.group);
    GroupsMembers(bgs, g);
    if NoDups(BackgroundKeys(bgs)) && g != bgs[i].1.group {
      forall c | c in GroupOf(bgs, g) ensures c.key != bgs[i].0 {
        var p :| 0 <= p < |bgs| && bgs[p].1.group == g && c == Choice(bgs[p]);
        assert BackgroundKeys(bgs)[p] == bgs[p].0 && BackgroundKeys(bgs)[i] == bgs[i].0;
      }
    }
  }

  function BackgroundKeys(bgs: seq<(string, Background)>): (r: seq<string>)
    ensures |r| == |bgs| && forall i | 0 <= i < |bgs| :: r[i] == bgs[i].0
  {
    seq(|bgs|, i requires 0 <= i < |bgs| => bgs[i].0)
  }

  /** The keys of `HEADER_BACKGROUNDS` are distinct, so each one is in
      exactly one group of the picker. */
  lemma HeaderBackgroundKeysDistinct(bgs: seq<(string, Background)>)
    requires bgs == HeaderBackgrounds
    ensures NoDups(BackgroundKeys(bgs))
  {
    var ks := BackgroundKeys(bgs);
    assert |ks| == |HeaderBackgroundKeys|;
    forall i | 0 <= i < |ks| ensures ks[i] == HeaderBackgroundKeys[i] {
      assert ks[i] == bgs[i].0;
    }
    assert ks == HeaderBackgroundKeys;
    HeaderBackgroundKeyListDistinct(ks);
  }

  const HeaderBackgroundKeys: seq<string> := ["gradient-1", "gradient-2", "gradient-3", "gradient-4",
    "gradient-5", "gradient-6", "pattern-1", "pattern-2", "pattern-3", "pattern-4", "pattern-5",
    "pattern-6", "pattern-7"]

  lemma HeaderBackgroundKeyListDistinct(ks: seq<string>)
    requires ks == HeaderBackgroundKeys
    ensures NoDups(ks)
  {
  }
}
