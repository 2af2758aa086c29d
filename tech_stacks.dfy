/** The selected tech stack, a JavaScript object from category name to the
    list of selected skill names, as an association list in the object's
    key order. Reading a key is `ts[c] || []`; writing one is
    `{ ...ts, [c]: v }`, which keeps an existing key in its place and adds a
    new key at the end. */
module TechStacks {
  import opened Types
  import opened Lists
  import opened Wrappers

  function Keys(ts: TechStack): (r: seq<string>)
    ensures |r| == |ts|
    ensures forall i | 0 <= i < |ts| :: r[i] == ts[i].category
  {
    seq(|ts|, i requires 0 <= i < |ts| => ts[i].category)
  }

  /** A JavaScript object has each key once. */
  predicate UniqueKeys(ts: TechStack)
  {
    NoDups(Keys(ts))
  }

  /** The index of the first entry with key `c`. */
  function KeyIndex(ts: TechStack, c: string): (r: Option<nat>)
    ensures r.None? <==> c !in Keys(ts)
    ensures r.Some? ==> r.value < |ts| && ts[r.value].category == c
    ensures r.Some? ==> forall j | 0 <= j < r.value :: ts[j].category != c
  {
    if |ts| == 0 then None
    else if ts[0].category == c then Some(0)
    else
      match KeyIndex(ts[1..], c)
      case None => None
      case Some(i) => Some(i + 1)
  }

  /** `ts[c] || []`: the skills under `c`, or none when `c` is not a key. */
  function Lookup(ts: TechStack, c: string): (r: seq<string>)
    ensures c !in Keys(ts) ==> r == []
    ensures forall i | 0 <= i < |ts| && ts[i].category == c && (forall j | 0 <= j < i :: ts[j].category != c) ::
      r == ts[i].skills
  {
    match KeyIndex(ts, c)
    case None => []
    case Some(i) => ts[i].skills
  }

  /** `{ ...ts, [c]: v }`: an existing key is overwritten in place, a new
      key is added at the end. */
  function Put(ts: TechStack, c: string, v: seq<string>): (r: TechStack)
    ensures c !in Keys(ts) ==> r == ts + [CategorySkills(c, v)]
    ensures forall i | 0 <= i < |ts| && ts[i].category == c && (forall j | 0 <= j < i :: ts[j].category != c) ::
      r == ts[i := CategorySkills(c, v)]
  {
    match KeyIndex(ts, c)
    case None => ts + [CategorySkills(c, v)]
    case Some(i) => ts[i := CategorySkills(c, v)]
  }

  /** After `{ ...ts, [c]: v }`, `c` reads `v`, every other key reads what
      it read before, and the key order is kept, with `c` appended when it
      is new. */
  lemma PutLookup(ts: TechStack, c: string, v: seq<string>)
    ensures Lookup(Put(ts, c, v), c) == v
    ensures forall d | d != c :: Lookup(Put(ts, c, v), d) == Lookup(ts, d)
    ensures c in Keys(ts) ==> Keys(Put(ts, c, v)) == Keys(ts)
    ensures c !in Keys(ts) ==> Keys(Put(ts, c, v)) == Keys(ts) + [c]
  {
    match KeyIndex(ts, c)
    case None =>
      LookupAppend(ts, c, v);
    case Some(i) =>
      LookupOverwrite(ts, i, c, v);
  }

  lemma LookupAppend(ts: TechStack, c: string, v: seq<string>)
    requires c !in Keys(ts)
    ensures Lookup(ts + [CategorySkills(c, v)], c) == v
    ensures forall d | d != c :: Lookup(ts + [CategorySkills(c, v)], d) == Lookup(ts, d)
    ensures Keys(ts + [CategorySkills(c, v)]) == Keys(ts) + [c]
  {
    var r := ts + [CategorySkills(c, v)];
    assert Keys(r) == Keys(ts) + [c];
    forall d | d != c ensures Lookup(r, d) == Lookup(ts, d) {
      if d in Keys(ts) {
        var k := KeyIndex(ts, d).value;
        assert r[k] == ts[k];
      }
    }
  }

  lemma LookupOverwrite(ts: TechStack, i: nat, c: string, v: seq<string>)
    requires i < |ts| && ts[i].category == c
    requires forall j | 0 <= j < i :: ts[j].category != c
    ensures Lookup(ts[i := CategorySkills(c, v)], c) == v
    ensures forall d | d != c :: Lookup(ts[i := CategorySkills(c, v)], d) == Lookup(ts, d)
    ensures Keys(ts[i := CategorySkills(c, v)]) == Keys(ts)
  {
    var r := ts[i := CategorySkills(c, v)];
    assert Keys(r) == Keys(ts);
    forall d | d != c ensures Lookup(r, d) == Lookup(ts, d) {
      if d in Keys(ts) {
        var k := KeyIndex(ts, d).value;
        assert r[k] == ts[k];
      }
    }
  }

  /** Writing a key keeps the object's keys distinct. */
  lemma PutUniqueKeys(ts: TechStack, c: string, v: seq<string>)
    requires UniqueKeys(ts)
    ensures UniqueKeys(Put(ts, c, v))
  {
    PutLookup(ts, c, v);
    if c !in Keys(ts) {
      NoDupsSnoc(Keys(ts), c);
    }
  }

  /** Once the keys are distinct, reading a key finds the one entry that
      has it. */
  lemma LookupUnique(ts: TechStack, i: nat)
    requires UniqueKeys(ts) && i < |ts|
    ensures Lookup(ts, ts[i].category) == ts[i].skills
  {
    assert forall j | 0 <= j < i :: Keys(ts)[j] != Keys(ts)[i];
  }

  // ---------------------------------------------------------------------
  // Selecting and deselecting a skill
  // ---------------------------------------------------------------------

  /** The skill is removed from its category when selected and appended
      otherwise; a category that was not a key becomes one, at the end. */
  function ToggleSkill(ts: TechStack, category: string, skill: string): TechStack
  {
    Put(ts, category, Toggle(Lookup(ts, category), skill))
  }

  /** The toggled skill flips its membership, every other skill and every
      other category is kept, an absent skill is appended, and the key
      order is kept (with a new category last). */
  lemma ToggleSkillLookup(ts: TechStack, category: string, skill: string)
    ensures skill in Lookup(ToggleSkill(ts, category, skill), category) <==> skill !in Lookup(ts, category)
    ensures forall s | s != skill ::
      s in Lookup(ToggleSkill(ts, category, skill), category) <==> s in Lookup(ts, category)
    ensures skill !in Lookup(ts, category) ==>
      Lookup(ToggleSkill(ts, category, skill), category) == Lookup(ts, category) + [skill]
    ensures forall c | c != category :: Lookup(ToggleSkill(ts, category, skill), c) == Lookup(ts, c)
    ensures category in Keys(ts) ==> Keys(ToggleSkill(ts, category, skill)) == Keys(ts)
    ensures category !in Keys(ts) ==> Keys(ToggleSkill(ts, category, skill)) == Keys(ts) + [category]
  {
    PutLookup(ts, category, Toggle(Lookup(ts, category), skill));
  }

  /** Every category free of repeated skills, and the object's keys
      distinct. */
  predicate WellFormedStack(ts: TechStack)
  {
    UniqueKeys(ts) && forall i | 0 <= i < |ts| :: NoDups(ts[i].skills)
  }

  /** In a well-formed stack every category reads a list without repeats. */
  lemma LookupNoDups(ts: TechStack, c: string)
    requires WellFormedStack(ts)
    ensures NoDups(Lookup(ts, c))
  {
    if c in Keys(ts) {
      LookupUnique(ts, KeyIndex(ts, c).value);
    }
  }

  /** Writing a list without repeats keeps the stack well formed. */
  lemma PutWellFormed(ts: TechStack, c: string, v: seq<string>)
    requires WellFormedStack(ts) && NoDups(v)
    ensures WellFormedStack(Put(ts, c, v))
  {
    PutUniqueKeys(ts, c, v);
    var r := Put(ts, c, v);
    forall i | 0 <= i < |r| ensures NoDups(r[i].skills) {
      match KeyIndex(ts, c)
      case None =>
        if i < |ts| { assert r[i] == ts[i]; }
      case Some(k) =>
        if i != k { assert r[i] == ts[i]; }
    }
  }

  /** A toggle keeps the stack well formed. */
  lemma ToggleKeepsWellFormed(ts: TechStack, category: string, skill: string)
    requires WellFormedStack(ts)
    ensures WellFormedStack(ToggleSkill(ts, category, skill))
  {
    LookupNoDups(ts, category);
    ToggleNoDups(Lookup(ts, category), skill);
    PutWellFormed(ts, category, Toggle(Lookup(ts, category), skill));
  }

  /** Toggling the same skill twice restores the category's set of skills,
      though a skill that was removed and added back now comes last. */
  lemma ToggleTwice(ts: TechStack, category: string, skill: string)
    requires WellFormedStack(ts)
    ensures forall s ::
      s in Lookup(ToggleSkill(ToggleSkill(ts, category, skill), category, skill), category)
      <==> s in Lookup(ts, category)
    ensures skill in Lookup(ts, category) ==>
      Lookup(ToggleSkill(ToggleSkill(ts, category, skill), category, skill), category)
      == RemoveAll(Lookup(ts, category), skill) + [skill]
  {
    var once := ToggleSkill(ts, category, skill);
    ToggleSkillLookup(ts, category, skill);
    ToggleSkillLookup(once, category, skill);
    var current := Lookup(ts, category);
    if skill in current {
      LookupNoDups(ts, category);
      assert Lookup(once, category) == Toggle(current, skill) by {
        PutLookup(ts, category, Toggle(current, skill));
      }
    }
  }
}
