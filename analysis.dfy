/** The deterministic post-processing of the AI handlers, applied to an
    already-parsed response: the skill-name to category map, the placement
    of the suggested skills into a fresh copy of the default tech stack,
    the project built from an analysed URL, and the checks each handler
    makes on its input before calling the model. */
module Analysis {
  import opened Wrappers
  import opened Types
  import opened Lists
  import opened TechStacks
  import opened Constants
  import opened Patches
  import opened Store
  import JsString

  // ---------------------------------------------------------------------
  // The skill-name to category map
  // ---------------------------------------------------------------------

  /** The map after `map.set(skill.name, category)` for every skill of every
      category, in catalog order: a later category overrides an earlier one
      that lists the same name. */
  function SkillMap(cats: seq<CatalogCategory>): map<string, string>
    decreases |cats|
  {
    if |cats| == 0 then map[]
    else
      var last := cats[|cats| - 1];
      SetAll(SkillMap(cats[..|cats| - 1]), last.skills, last.category)
  }

  /** `skills.forEach(skill => map.set(skill.name, category))` */
  function SetAll(m: map<string, string>, skills: seq<Skill>, c: string): (r: map<string, string>)
    ensures forall n :: n in r <==> n in m || n in SkillNames(skills)
    ensures forall n | n in SkillNames(skills) :: r[n] == c
    ensures forall n | n in m && n !in SkillNames(skills) :: r[n] == m[n]
    decreases |skills|
  {
    if |skills| == 0 then m
    else
      var r := SetAll(m, skills[..|skills| - 1], c)[skills[|skills| - 1].name := c];
      assert SkillNames(skills) == SkillNames(skills[..|skills| - 1]) + [skills[|skills| - 1].name];
      r
  }

  /** The `useMemo` that builds `skillToCategoryMap`. */
  method BuildSkillMap(cats: seq<CatalogCategory>) returns (m: map<string, string>)
    ensures m == SkillMap(cats)
  {
    m := map[];
    for i := 0 to |cats|
      invariant m == SkillMap(cats[..i])
    {
      var skills := cats[i].skills;
      var before := m;
      for j := 0 to |skills|
        invariant m == SetAll(before, skills[..j], cats[i].category)
      {
        assert skills[..j + 1][..j] == skills[..j];
        m := m[skills[j].name := cats[i].category];
      }
      assert skills[..|skills|] == skills;
      assert cats[..i + 1][..i] == cats[..i];
    }
    assert cats[..|cats|] == cats;
  }

  /** The last catalog index whose category lists `n`. */
  predicate LastListing(cats: seq<CatalogCategory>, n: string, i: int)
  {
    0 <= i < |cats| && n in SkillNames(cats[i].skills)
    && forall j | i < j < |cats| :: n !in SkillNames(cats[j].skills)
  }

  /** A name is mapped exactly when some category lists it. */
  lemma {:induction false} SkillMapDomain(cats: seq<CatalogCategory>, n: string)
    ensures n in SkillMap(cats) <==> exists i | 0 <= i < |cats| :: n in SkillNames(cats[i].skills)
    decreases |cats|
  {
    if |cats| > 0 {
      var k := |cats| - 1;
      SkillMapDomain(cats[..k], n);
      if n in SkillMap(cats[..k]) {
        var i :| 0 <= i < k && n in SkillNames(cats[..k][i].skills);
        assert cats[..k][i] == cats[i];
      }
      if i :| 0 <= i < |cats| && n in SkillNames(cats[i].skills) {
        if i < k {
          assert cats[..k][i] == cats[i];
        }
      }
    }
  }

  /** A name is mapped to the category of the last catalog entry that
      lists it. */
  lemma {:induction false} SkillMapLastWins(cats: seq<CatalogCategory>, n: string, i: int)
    requires LastListing(cats, n, i)
    ensures n in SkillMap(cats) && SkillMap(cats)[n] == cats[i].category
    decreases |cats|
  {
    var k := |cats| - 1;
    if i < k {
      assert LastListing(cats[..k], n, i) by {
        forall j | i < j < k ensures n !in SkillNames(cats[..k][j].skills) {
          assert cats[..k][j] == cats[j];
        }
        assert cats[..k][i] == cats[i];
      }
      SkillMapLastWins(cats[..k], n, i);
    }
  }

  /** Every mapped name goes to one of the catalog's categories. */
  lemma {:induction false} SkillMapValues(cats: seq<CatalogCategory>)
    ensures forall n | n in SkillMap(cats) :: SkillMap(cats)[n] in CategoryNames(cats)
    decreases |cats|
  {
    if |cats| > 0 {
      var k := |cats| - 1;
      SkillMapValues(cats[..k]);
      forall n | n in SkillMap(cats[..k]) ensures SkillMap(cats[..k])[n] in CategoryNames(cats) {
        var c := SkillMap(cats[..k])[n];
        var i :| 0 <= i < k && CategoryNames(cats[..k])[i] == c;
        assert CategoryNames(cats)[i] == c;
      }
      assert CategoryNames(cats)[k] == cats[k].category;
    }
  }

  /** Swift and Kotlin, listed under both "Programming Languages" and
      "Mobile App Development", are mapped to the later of the two. */
  lemma SharedSkillsMapToMobile()
    ensures "Swift" in SkillMap(TechCatalog) && SkillMap(TechCatalog)["Swift"] == "Mobile App Development"
    ensures "Kotlin" in SkillMap(TechCatalog) && SkillMap(TechCatalog)["Kotlin"] == "Mobile App Development"
  {
    MobileListsLast(TechCatalog, "Swift");
    MobileListsLast(TechCatalog, "Kotlin");
    SkillMapLastWins(TechCatalog, "Swift", 3);
    SkillMapLastWins(TechCatalog, "Kotlin", 3);
  }

  lemma MobileListsLast(cats: seq<CatalogCategory>, n: string)
    requires cats == TechCatalog && (n == "Swift" || n == "Kotlin")
    ensures LastListing(cats, n, 3) && cats[3].category == "Mobile App Development"
  {
    SharedSkillNames();
    forall j | 3 < j < |cats| ensures n !in SkillNames(cats[j].skills) {
      SharedSkillNotLater(j, n);
    }
  }

  // ---------------------------------------------------------------------
  // Placing the suggested skills
  // ---------------------------------------------------------------------

  /** One suggested skill: when the map knows it and its category does not
      hold it yet, it is appended there; anything else is ignored. */
  function Place(ts: TechStack, m: map<string, string>, s: string): TechStack
  {
    if s in m && m[s] != "" && s !in Lookup(ts, m[s]) then Put(ts, m[s], Lookup(ts, m[s]) + [s])
    else ts
  }

  /** The suggested skills placed one after the other. */
  function Categorize(base: TechStack, m: map<string, string>, skills: seq<string>): TechStack
    decreases |skills|
  {
    if |skills| == 0 then base
    else Place(Categorize(base, m, skills[..|skills| - 1]), m, skills[|skills| - 1])
  }

  /** The category of a mapped skill, `skillToCategoryMap.get(s)`, is truthy
      and a key of the stack. */
  predicate MapsIntoKeys(m: map<string, string>, ts: TechStack)
  {
    forall s | s in m :: m[s] in Keys(ts)
  }

  /** `parsed.skills.forEach(...)` over a fresh copy of the defaults (the
      array `push` becomes an append to the category's list). Reading
      `newTechStack[category]` for a category that is not a key would throw,
      so every mapped category must be a key. */
  method PlaceSkills(base: TechStack, m: map<string, string>, skills: seq<string>) returns (ts: TechStack)
    requires MapsIntoKeys(m, base)
    ensures ts == Categorize(base, m, skills)
  {
    ts := base;
    for i := 0 to |skills|
      invariant ts == Categorize(base, m, skills[..i])
    {
      assert skills[..i + 1][..i] == skills[..i];
      var s := skills[i];
      if s in m && m[s] != "" && s !in Lookup(ts, m[s]) {
        ts := Put(ts, m[s], Lookup(ts, m[s]) + [s]);
      }
    }
    assert skills[..|skills|] == skills;
  }

  /** Placing skills only ever adds keys at the end, and adds none when
      every mapped category is already a key. */
  lemma {:induction false} CategorizeKeys(base: TechStack, m: map<string, string>, skills: seq<string>)
    ensures IsPrefix(Keys(base), Keys(Categorize(base, m, skills)))
    ensures MapsIntoKeys(m, base) ==> Keys(Categorize(base, m, skills)) == Keys(base)
    decreases |skills|
  {
    if |skills| == 0 {
      assert Keys(base)[..|Keys(base)|] == Keys(base);
    } else {
      var ts := Categorize(base, m, skills[..|skills| - 1]);
      CategorizeKeys(base, m, skills[..|skills| - 1]);
      var s := skills[|skills| - 1];
      if s in m && m[s] != "" && s !in Lookup(ts, m[s]) {
        PutLookup(ts, m[s], Lookup(ts, m[s]) + [s]);
        var r := Categorize(base, m, skills);
        if m[s] !in Keys(ts) {
          assert Keys(r)[..|Keys(base)|] == Keys(ts)[..|Keys(base)|];
        }
      }
    }
  }

  /** A category ends up holding its defaults and the suggested skills
      the map sends to it, and nothing else. */
  lemma {:induction false} CategorizeMembers(base: TechStack, m: map<string, string>, skills: seq<string>, c: string, x: string)
    ensures x in Lookup(Categorize(base, m, skills), c) <==>
      x in Lookup(base, c) || (x in skills && x in m && m[x] == c && c != "")
    decreases |skills|
  {
    if |skills| > 0 {
      var init := skills[..|skills| - 1];
      var s := skills[|skills| - 1];
      CategorizeMembers(base, m, init, c, x);
      PlaceMembers(Categorize(base, m, init), m, s, c, x);
      assert x in skills <==> x in init || x == s by {
        assert skills == init + [s];
      }
    }
  }

  /** One placement adds the placed skill to its mapped category and
      nothing else. */
  lemma PlaceMembers(ts: TechStack, m: map<string, string>, s: string, c: string, x: string)
    ensures x in Lookup(Place(ts, m, s), c) <==>
      x in Lookup(ts, c) || (x == s && s in m && m[s] == c && c != "")
  {
    if s in m && m[s] != "" && s !in Lookup(ts, m[s]) {
      var v := Lookup(ts, m[s]) + [s];
      PutLookup(ts, m[s], v);
      if m[s] == c {
        assert x in v <==> x in Lookup(ts, c) || x == s;
      }
    }
  }

  /** The defaults stay first and unchanged in every category. */
  lemma {:induction false} CategorizeDefaultsFirst(base: TechStack, m: map<string, string>, skills: seq<string>, c: string)
    ensures IsPrefix(Lookup(base, c), Lookup(Categorize(base, m, skills), c))
    decreases |skills|
  {
    if |skills| == 0 {
      assert Lookup(base, c)[..|Lookup(base, c)|] == Lookup(base, c);
    } else {
      var init := skills[..|skills| - 1];
      var s := skills[|skills| - 1];
      var ts := Categorize(base, m, init);
      CategorizeDefaultsFirst(base, m, init, c);
      if s in m && m[s] != "" && s !in Lookup(ts, m[s]) {
        PutLookup(ts, m[s], Lookup(ts, m[s]) + [s]);
        if m[s] == c {
          var l := Lookup(base, c);
          assert (Lookup(ts, c) + [s])[..|l|] == Lookup(ts, c)[..|l|];
        }
      }
    }
  }

  /** A well-formed default stack stays well formed: no category ends up
      with a skill twice. */
  lemma {:induction false} CategorizeWellFormed(base: TechStack, m: map<string, string>, skills: seq<string>)
    requires WellFormedStack(base)
    ensures WellFormedStack(Categorize(base, m, skills))
    decreases |skills|
  {
    if |skills| > 0 {
      var ts := Categorize(base, m, skills[..|skills| - 1]);
      CategorizeWellFormed(base, m, skills[..|skills| - 1]);
      var s := skills[|skills| - 1];
      if s in m && m[s] != "" && s !in Lookup(ts, m[s]) {
        LookupNoDups(ts, m[s]);
        NoDupsSnoc(Lookup(ts, m[s]), s);
        PutWellFormed(ts, m[s], Lookup(ts, m[s]) + [s]);
      }
    }
  }

  /** The map built from the catalog sends every name to a key of the
      default stack, so the source's placement never reads a missing
      category. */
  lemma CatalogMapIntoDefaults()
    ensures MapsIntoKeys(SkillMap(TechCatalog), InitialTechStack())
  {
    SkillMapValues(TechCatalog);
    InitialTechStackShape();
  }

  /** `handleAnalyzeProfile`'s update: the bio is replaced when the
      response has a non-empty one, and the tech stack starts again from the
      defaults with the suggested skills placed; nothing else changes. A
      response without a `skills` array places nothing. */
  function ApplyProfileAnalysis(prev: FormData, bio: Option<string>, skills: Option<seq<string>>): (r: FormData)
    ensures r.bio == (if bio.Some? && bio.value != "" then bio.value else prev.bio)
    ensures r.techStack == Categorize(InitialTechStack(), SkillMap(TechCatalog), skills.GetOr([]))
    ensures r.(bio := prev.bio, techStack := prev.techStack) == prev
  {
    prev.(bio := if bio.Some? && bio.value != "" then bio.value else prev.bio,
          techStack := Categorize(InitialTechStack(), SkillMap(TechCatalog), skills.GetOr([])))
  }

  /** After a profile analysis the tech stack has every catalog category as
      a key, holds each default selection, and holds a suggested skill
      exactly where the catalog map sends it (or among the defaults).
      Since each analysis starts from the unchanged defaults, one that
      suggests no skills gives back exactly the default stack, whatever
      earlier analyses placed. */
  lemma ProfileAnalysisStack(prev: FormData, bio: Option<string>, skills: Option<seq<string>>, c: string, s: string)
    ensures Keys(ApplyProfileAnalysis(prev, bio, skills).techStack) == CategoryNames(TechCatalog)
    ensures s in Lookup(ApplyProfileAnalysis(prev, bio, skills).techStack, c) <==>
      s in Lookup(InitialTechStack(), c)
      || (s in skills.GetOr([]) && s in SkillMap(TechCatalog) && SkillMap(TechCatalog)[s] == c && c != "")
    ensures WellFormedStack(ApplyProfileAnalysis(prev, bio, skills).techStack)
    ensures skills.GetOr([]) == [] ==> ApplyProfileAnalysis(prev, bio, skills).techStack == InitialTechStack()
  {
    CatalogMapIntoDefaults();
    InitialTechStackShape();
    DefaultSelectionsInCatalog();
    CategorizeKeys(InitialTechStack(), SkillMap(TechCatalog), skills.GetOr([]));
    CategorizeMembers(InitialTechStack(), SkillMap(TechCatalog), skills.GetOr([]), c, s);
    CategorizeWellFormed(InitialTechStack(), SkillMap(TechCatalog), skills.GetOr([]));
  }

  /** `handleAnalyzeResume`'s update: the name and the bio are replaced
      when the response has non-empty ones, the work experience and the
      education whenever the response has them (an empty array included,
      since every array is truthy), and the tech stack is rebuilt as in a
      profile analysis; nothing else changes. */
  function ApplyResumeAnalysis(prev: FormData, name: Option<string>, bio: Option<string>,
    work: Option<seq<WorkEntry>>, education: Option<seq<EducationEntry>>, skills: Option<seq<string>>): (r: FormData)
    ensures r.name == JsString.OrElse(name.GetOr(""), prev.name) && r.bio == JsString.OrElse(bio.GetOr(""), prev.bio)
    ensures r.workExperience == (if work.Some? then work.value else prev.workExperience)
    ensures r.education == (if education.Some? then education.value else prev.education)
    ensures r.techStack == Categorize(InitialTechStack(), SkillMap(TechCatalog), skills.GetOr([]))
    ensures r.(name := prev.name, bio := prev.bio, workExperience := prev.workExperience,
      education := prev.education, techStack := prev.techStack) == prev
  {
    prev.(name := JsString.OrElse(name.GetOr(""), prev.name), bio := JsString.OrElse(bio.GetOr(""), prev.bio),
          workExperience := work.GetOr(prev.workExperience), education := education.GetOr(prev.education),
          techStack := Categorize(InitialTechStack(), SkillMap(TechCatalog), skills.GetOr([])))
  }

  /** A resume response with only a bio and skills updates the form as a
      profile response with the same bio and skills does. */
  lemma ResumeLikeProfile(prev: FormData, bio: Option<string>, skills: Option<seq<string>>)
    ensures ApplyResumeAnalysis(prev, None, bio, None, None, skills) == ApplyProfileAnalysis(prev, bio, skills)
  {
  }

  // ---------------------------------------------------------------------
  // The placement as the source writes it: shared arrays
  // ---------------------------------------------------------------------

  /** One JavaScript array of skill names. */
  class SkillArray {
    var items: seq<string>

    constructor (items: seq<string>)
      ensures this.items == items
    {
      this.items := items;
    }
  }

  /** A tech-stack object whose values are arrays on the heap. */
  datatype Slot = Slot(category: string, list: SkillArray)

  function Arrays(slots: seq<Slot>): set<SkillArray>
  {
    set i | 0 <= i < |slots| :: slots[i].list
  }

  /** The object's current value. */
  function Contents(slots: seq<Slot>): (r: TechStack)
    reads Arrays(slots)
    ensures |r| == |slots|
    ensures forall i | 0 <= i < |slots| :: r[i] == CategorySkills(slots[i].category, slots[i].list.items)
  {
    seq(|slots|, i reads Arrays(slots) requires 0 <= i < |slots| =>
      CategorySkills(slots[i].category, slots[i].list.items))
  }

  /** Each key has an array of its own. */
  predicate Separate(slots: seq<Slot>)
  {
    forall i, j | 0 <= i < j < |slots| :: slots[i].list != slots[j].list
  }

  /** `const newTechStack = { ...INITIAL_FORM_DATA.techStack }` followed by
      `newTechStack[category].push(skillName)`: the spread copies the
      references, so the copy is the defaults' own arrays and every push
      lands in the defaults as well. */
  method PlaceSkillsShared(defaults: seq<Slot>, m: map<string, string>, skills: seq<string>)
    returns (newTechStack: seq<Slot>)
    requires Separate(defaults) && MapsIntoKeys(m, Contents(defaults))
    modifies Arrays(defaults)
    ensures newTechStack == defaults
    ensures Contents(defaults) == Categorize(old(Contents(defaults)), m, skills)
  {
    newTechStack := defaults;
    ghost var start := Contents(defaults);
    for i := 0 to |skills|
      invariant Contents(defaults) == Categorize(start, m, skills[..i])
      invariant Keys(Contents(defaults)) == Keys(start)
    {
      CategorizeStep(start, m, skills, i);
      var s := skills[i];
      var ts := Contents(defaults);
      if s in m && m[s] != "" {
        var c := m[s];
        var k := KeyIndex(ts, c).value;
        var list := newTechStack[k].list;
        assert Lookup(ts, c) == ts[k].skills == list.items;
        if s !in list.items {
          var v := list.items + [s];
          list.items := v;
          forall j | 0 <= j < |defaults| && j != k ensures defaults[j].list.items == ts[j].skills {
            assert defaults[j].list != defaults[k].list;
          }
          assert Contents(defaults) == ts[k := CategorySkills(c, v)];
          PutFirst(ts, k, c, v);
          assert Keys(Contents(defaults)) == Keys(ts);
        }
      }
    }
    assert skills[..|skills|] == skills;
  }

  /** One more skill is one more placement. */
  lemma CategorizeStep(base: TechStack, m: map<string, string>, skills: seq<string>, i: nat)
    requires i < |skills|
    ensures Categorize(base, m, skills[..i + 1]) == Place(Categorize(base, m, skills[..i]), m, skills[i])
  {
    assert skills[..i + 1][..i] == skills[..i];
  }

  /** Two profile analyses in a row, as written: the second one is meant to
      start from the defaults, but it finds the first analysis's skill
      already there, and so do the defaults that a later reset restores. */
  method SharedArraysWitness() returns (defaultsAfter: TechStack, secondAnalysis: TechStack)
    ensures defaultsAfter == [CategorySkills("Frontend Development", ["React"])]
    ensures secondAnalysis == [CategorySkills("Frontend Development", ["React"])]
    ensures secondAnalysis != Categorize([CategorySkills("Frontend Development", [])], map["React" := "Frontend Development"], [])
  {
    var list := new SkillArray([]);
    var defaults := [Slot("Frontend Development", list)];
    var m := map["React" := "Frontend Development"];
    var start := Contents(defaults);
    assert start == [CategorySkills("Frontend Development", [])];
    assert Keys(start) == ["Frontend Development"];
    assert Lookup(start, "Frontend Development") == [];
    assert ["React"][..0] == [];
    assert Categorize(start, m, ["React"]) == Place(start, m, "React");
    assert [] + ["React"] == ["React"];
    var first := PlaceSkillsShared(defaults, m, ["React"]);
    defaultsAfter := Contents(defaults);
    var second := PlaceSkillsShared(defaults, m, []);
    secondAnalysis := Contents(second);
  }

  // ---------------------------------------------------------------------
  // The project built from an analysed URL
  // ---------------------------------------------------------------------

  /** The fields the model may return; `None` is a missing or null key. */
  datatype ParsedProject = ParsedProject(
    name: Option<string>, description: Option<string>, thumbnailUrl: Option<string>,
    tech: Option<seq<string>>, category: Option<string>)

  /** `newProject` in `handleAnalyzeProjectUrl`: a GitHub URL becomes the
      repository link and any other URL the live link; the name and the
      category fall back to "Untitled Project" and "Web Application", and
      the project starts outside the featured set without badges. */
  function NewProject(url: string, parsed: ParsedProject): (r: Project)
    ensures r.name != "" && r.category != ""
    ensures JsString.Contains(url, "github.com") ==> r.repoUrl == url && r.liveUrl == ""
    ensures !JsString.Contains(url, "github.com") ==> r.liveUrl == url && r.repoUrl == ""
    ensures r.tech == parsed.tech.GetOr([])
    ensures !r.isTopProject && r.customBadges == ""
  {
    Project(
      name := JsString.OrElse(parsed.name.GetOr(""), "Untitled Project"),
      description := JsString.OrElse(parsed.description.GetOr(""), ""),
      repoUrl := if JsString.Contains(url, "github.com") then url else "",
      liveUrl := if !JsString.Contains(url, "github.com") then url else "",
      tech := parsed.tech.GetOr([]),
      isTopProject := false,
      category := JsString.OrElse(parsed.category.GetOr(""), "Web Application"),
      thumbnailUrl := JsString.OrElse(parsed.thumbnailUrl.GetOr(""), ""),
      customBadges := "")
  }

  /** `addListItem('projects', newProject)` after a successful analysis. */
  function ApplyProjectAnalysis(d: FormData, url: string, parsed: ParsedProject): (r: FormData)
    ensures SameExcept(d, r, KProjects)
    ensures r.projects == d.projects + [NewProject(url, parsed)]
  {
    AddListItem(d, ProjectItem(NewProject(url, parsed)))
  }

  // ---------------------------------------------------------------------
  // Input checks
  // ---------------------------------------------------------------------

  /** `handleAnalyzeProfile` refuses a blank URL or one without
      "github.com". */
  predicate ProfileUrlRejected(url: string)
  {
    JsString.Trim(url) == "" || !JsString.Contains(url, "github.com")
  }

  /** `handleGenerateWorkDescription` needs a title and a company. */
  predicate WorkDescriptionRejected(w: WorkEntry)
  {
    w.title == "" || w.company == ""
  }

  /** `handleGenerateProjectTechStack` needs a GitHub repository URL. */
  predicate ProjectTechRejected(p: Project)
  {
    p.repoUrl == "" || !JsString.Contains(p.repoUrl, "github.com")
  }

  /** `handleAnalyzeProjectUrl` refuses only a blank URL. */
  predicate ProjectUrlRejected(url: string)
  {
    JsString.Trim(url) == ""
  }

  /** Any URL the profile check accepts is accepted for project analysis
      too, and a project built from a URL can have its tech stack
      generated exactly when the URL names GitHub. */
  lemma ProjectFromUrlChecks(url: string, parsed: ParsedProject)
    ensures !ProfileUrlRejected(url) ==> !ProjectUrlRejected(url)
    ensures ProjectTechRejected(NewProject(url, parsed)) <==> !JsString.Contains(url, "github.com")
  {
    if JsString.Contains(url, "github.com") {
      var i :| 0 <= i <= |url| && JsString.StartsWith(url[i..], "github.com");
      assert |url| >= 10;
    }
  }
}
