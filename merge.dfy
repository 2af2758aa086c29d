/** `mergeFormData(partialData)`: folding a partial record, such as the
    fields recovered from a resume or a GitHub profile, into the form.

    The partial record has one optional value per key; `None` stands for
    both a missing key and a `null` value, which the merge treats alike.
    Per key:
    - the four nested configurations `mainHeader`, `profileHeader`,
      `socialIconStyle` and `advancedMetrics` are shallow-merged, and so is
      `sectionStyleConfig`, the one other object-valued key;
    - each category of `techStack` becomes the union of the existing and
      the incoming skills, duplicates removed, existing skills first;
    - a non-empty array is appended to the old one, its falsy items (the
      empty string) dropped, and an empty array changes nothing;
    - any other value (a string, a number, a boolean, an enumeration
      value) overwrites the old one.
    Every iteration of the source's loop over the partial's keys reads the
    previous record's value under its own key and writes only that key, so
    the iterations are independent and the merge is stated key by key. */
module Merging {
  import opened Wrappers
  import opened Types
  import opened Lists
  import opened TechStacks
  import opened Patches

  datatype PartialFormData = PartialFormData(
    mainHeader: Option<MainHeaderPatch>,
    profileHeader: Option<ProfileHeaderPatch>,
    resumeText: Option<string>,
    name: Option<string>,
    githubUser: Option<string>,
    bio: Option<string>,
    myMission: Option<string>,
    techStack: Option<TechStack>,
    skillStyle: Option<SkillStyle>,
    badgeColor: Option<string>,
    socials: Option<seq<SocialLink>>,
    socialStyle: Option<SocialStyle>,
    socialIconStyle: Option<SocialIconStylePatch>,
    workExperience: Option<seq<WorkEntry>>,
    projects: Option<seq<Project>>,
    projectStyle: Option<ProjectStyle>,
    volunteering: Option<seq<Volunteering>>,
    education: Option<seq<EducationEntry>>,
    certifications: Option<seq<Certification>>,
    research: Option<seq<ResearchEntry>>,
    awards: Option<seq<Award>>,
    publications: Option<seq<Publication>>,
    talks: Option<seq<Talk>>,
    languages: Option<seq<string>>,
    hobbies: Option<seq<string>>,
    buyMeACoffee: Option<string>,
    kofi: Option<string>,
    blogUrl: Option<string>,
    customHtml: Option<string>,
    footerText: Option<string>,
    footerStyle: Option<FooterStyle>,
    footerCardWidth: Option<int>,
    footerCardBorderRadius: Option<int>,
    footerCardBorderColor: Option<string>,
    hackathons: Option<seq<Hackathon>>,
    problemSolving: Option<seq<ProblemSolvingProfile>>,
    showVisitors: Option<bool>,
    showStats: Option<bool>,
    showTopLangs: Option<bool>,
    showTrophies: Option<bool>,
    showPinnedRepos: Option<bool>,
    showProfileSummary: Option<bool>,
    showProductiveTime: Option<bool>,
    githubUtcOffset: Option<string>,
    showStreakStats: Option<bool>,
    showActivityGraph: Option<bool>,
    showWakatimeBadge: Option<bool>,
    showWakatimeChart: Option<bool>,
    wakatimeUser: Option<string>,
    statsTheme: Option<string>,
    showBorder: Option<bool>,
    borderRadius: Option<int>,
    sectionOrder: Option<seq<SectionKey>>,
    sectionStyleConfig: Option<SectionStylePatch>,
    statsCardType: Option<StatsCardType>,
    borderColor: Option<string>,
    advancedMetrics: Option<AdvancedMetricsPatch>)

  /** The partial record with no keys. */
  function Nothing(): PartialFormData
  {
    PartialFormData(None, None, None, None, None, None, None, None, None, None, None, None, None, None, None, None, None, None, None, None, None, None, None, None, None, None, None, None, None, None, None, None, None, None, None, None, None, None, None, None, None, None, None, None, None, None, None, None, None, None, None, None, None, None, None, None, None)
  }

  function Merge(prev: FormData, p: PartialFormData): FormData
  {
    FormData(
      ShallowMainHeader(prev.mainHeader, p.mainHeader),
      ShallowProfileHeader(prev.profileHeader, p.profileHeader),
      Overwrite(prev.resumeText, p.resumeText),
      Overwrite(prev.name, p.name),
      Overwrite(prev.githubUser, p.githubUser),
      Overwrite(prev.bio, p.bio),
      Overwrite(prev.myMission, p.myMission),
      MergeStacks(prev.techStack, p.techStack),
      Overwrite(prev.skillStyle, p.skillStyle),
      Overwrite(prev.badgeColor, p.badgeColor),
      AppendItems(prev.socials, p.socials),
      Overwrite(prev.socialStyle, p.socialStyle),
      ShallowSocialIconStyle(prev.socialIconStyle, p.socialIconStyle),
      AppendItems(prev.workExperience, p.workExperience),
      AppendItems(prev.projects, p.projects),
      Overwrite(prev.projectStyle, p.projectStyle),
      AppendItems(prev.volunteering, p.volunteering),
      AppendItems(prev.education, p.education),
      AppendItems(prev.certifications, p.certifications),
      AppendItems(prev.research, p.research),
      AppendItems(prev.awards, p.awards),
      AppendItems(prev.publications, p.publications),
      AppendItems(prev.talks, p.talks),
      AppendStrings(prev.languages, p.languages),
      AppendStrings(prev.hobbies, p.hobbies),
      Overwrite(prev.buyMeACoffee, p.buyMeACoffee),
      Overwrite(prev.kofi, p.kofi),
      Overwrite(prev.blogUrl, p.blogUrl),
      Overwrite(prev.customHtml, p.customHtml),
      Overwrite(prev.footerText, p.footerText),
      Overwrite(prev.footerStyle, p.footerStyle),
      Overwrite(prev.footerCardWidth, p.footerCardWidth),
      Overwrite(prev.footerCardBorderRadius, p.footerCardBorderRadius),
      Overwrite(prev.footerCardBorderColor, p.footerCardBorderColor),
      AppendItems(prev.hackathons, p.hackathons),
      AppendItems(prev.problemSolving, p.problemSolving),
      Overwrite(prev.showVisitors, p.showVisitors),
      Overwrite(prev.showStats, p.showStats),
      Overwrite(prev.showTopLangs, p.showTopLangs),
      Overwrite(prev.showTrophies, p.showTrophies),
      Overwrite(prev.showPinnedRepos, p.showPinnedRepos),
      Overwrite(prev.showProfileSummary, p.showProfileSummary),
      Overwrite(prev.showProductiveTime, p.showProductiveTime),
      Overwrite(prev.githubUtcOffset, p.githubUtcOffset),
      Overwrite(prev.showStreakStats, p.showStreakStats),
      Overwrite(prev.showActivityGraph, p.showActivityGraph),
      Overwrite(prev.showWakatimeBadge, p.showWakatimeBadge),
      Overwrite(prev.showWakatimeChart, p.showWakatimeChart),
      Overwrite(prev.wakatimeUser, p.wakatimeUser),
      Overwrite(prev.statsTheme, p.statsTheme),
      Overwrite(prev.showBorder, p.showBorder),
      Overwrite(prev.borderRadius, p.borderRadius),
      AppendItems(prev.sectionOrder, p.sectionOrder),
      ShallowSectionStyleConfig(prev.sectionStyleConfig, p.sectionStyleConfig),
      Overwrite(prev.statsCardType, p.statsCardType),
      Overwrite(prev.borderColor, p.borderColor),
      ShallowAdvancedMetrics(prev.advancedMetrics, p.advancedMetrics))
  }

  /** `{ ...prev[k], ...value }` for a present object, and the old object
      otherwise. */
  function ShallowMainHeader(c: MainHeaderConfig, q: Option<MainHeaderPatch>): MainHeaderConfig
  {
    if q.Some? then q.value.ApplyTo(c) else c
  }

  function ShallowProfileHeader(c: ProfileHeaderConfig, q: Option<ProfileHeaderPatch>): ProfileHeaderConfig
  {
    if q.Some? then q.value.ApplyTo(c) else c
  }

  function ShallowSocialIconStyle(c: SocialIconStyle, q: Option<SocialIconStylePatch>): SocialIconStyle
  {
    if q.Some? then q.value.ApplyTo(c) else c
  }

  function ShallowSectionStyleConfig(c: SectionStyleConfig, q: Option<SectionStylePatch>): SectionStyleConfig
  {
    if q.Some? then q.value.ApplyTo(c) else c
  }

  function ShallowAdvancedMetrics(c: AdvancedMetrics, q: Option<AdvancedMetricsPatch>): AdvancedMetrics
  {
    if q.Some? then q.value.ApplyTo(c) else c
  }

  /** The merged tech stack when the partial record has one. */
  function MergeStacks(c: TechStack, q: Option<TechStack>): TechStack
  {
    if q.Some? then MergeTechStack(c, q.value) else c
  }

  /** `newState[k] = value` for a non-null scalar. */
  function Overwrite<T>(current: T, v: Option<T>): T
  {
    v.GetOr(current)
  }

  /** `[...prev[k], ...value.filter(item => item)]` when `value` is a
      non-empty array of strings, and the old array otherwise. */
  function AppendStrings(current: seq<string>, v: Option<seq<string>>): (r: seq<string>)
    ensures v.None? ==> r == current
    ensures v.Some? ==> r == current + Truthy(v.value)
  {
    if v.Some? && |v.value| > 0 then current + Truthy(v.value) else current
  }

  /** The same for an array of objects or of section keys, none of which is
      falsy, so nothing is dropped. */
  function AppendItems<T>(current: seq<T>, v: Option<seq<T>>): (r: seq<T>)
    ensures v.None? ==> r == current
    ensures v.Some? ==> r == current + v.value
  {
    if v.Some? && |v.value| > 0 then current + v.value else current
  }

  /** `value.filter(item => item)` on strings: the non-empty ones, in
      order. */
  function Truthy(v: seq<string>): (r: seq<string>)
    ensures IsSubsequence(r, v)
    ensures forall x :: x in r <==> x in v && x != ""
    ensures "" !in v ==> r == v
  {
    if |v| == 0 then []
    else if v[0] == "" then Truthy(v[1..])
    else [v[0]] + Truthy(v[1..])
  }

  // ---------------------------------------------------------------------
  // The tech stack
  // ---------------------------------------------------------------------

  /** The incoming categories, in the partial object's key order, each
      replaced by `[...new Set([...existing, ...incoming])]`. */
  function MergeTechStack(existing: TechStack, incoming: TechStack): TechStack
    decreases |incoming|
  {
    if |incoming| == 0 then existing
    else
      var c := incoming[0].category;
      MergeTechStack(Put(existing, c, Dedupe(Lookup(existing, c) + incoming[0].skills)), incoming[1..])
  }

  /** The source's `for (const category in partialData.techStack)` loop. */
  method MergeTechStacks(existing: TechStack, incoming: TechStack) returns (r: TechStack)
    ensures r == MergeTechStack(existing, incoming)
  {
    r := existing;
    for i := 0 to |incoming|
      invariant MergeTechStack(r, incoming[i..]) == MergeTechStack(existing, incoming)
    {
      assert incoming[i..][1..] == incoming[i + 1..];
      var c := incoming[i].category;
      r := Put(r, c, Dedupe(Lookup(r, c) + incoming[i].skills));
    }
  }

  /** Each incoming category reads the union of its existing and incoming
      skills, duplicates removed; every other category is untouched. */
  lemma {:induction false} MergeTechStackLookup(existing: TechStack, incoming: TechStack, c: string)
    requires UniqueKeys(incoming)
    ensures c in Keys(incoming) ==>
      Lookup(MergeTechStack(existing, incoming), c) == Dedupe(Lookup(existing, c) + Lookup(incoming, c))
    ensures c !in Keys(incoming) ==>
      Lookup(MergeTechStack(existing, incoming), c) == Lookup(existing, c)
    decreases |incoming|
  {
    if |incoming| > 0 {
      var c0 := incoming[0].category;
      var next := Put(existing, c0, Dedupe(Lookup(existing, c0) + incoming[0].skills));
      var rest := incoming[1..];
      KeysTail(incoming);
      MergeTechStackLookup(next, rest, c);
      PutLookup(existing, c0, Dedupe(Lookup(existing, c0) + incoming[0].skills));
      if c == c0 {
        assert Keys(incoming)[0] == c0;
      } else {
        LookupTail(incoming, c);
      }
    }
  }

  lemma KeysTail(ts: TechStack)
    requires |ts| > 0
    ensures Keys(ts) == [ts[0].category] + Keys(ts[1..])
    ensures UniqueKeys(ts) ==> UniqueKeys(ts[1..]) && ts[0].category !in Keys(ts[1..])
  {
    assert Keys(ts) == [ts[0].category] + Keys(ts[1..]);
    if UniqueKeys(ts) {
      assert forall i | 0 <= i < |ts| - 1 :: Keys(ts[1..])[i] == Keys(ts)[i + 1];
    }
  }

  lemma LookupTail(ts: TechStack, c: string)
    requires |ts| > 0 && ts[0].category != c
    ensures Lookup(ts, c) == Lookup(ts[1..], c)
    ensures c in Keys(ts) <==> c in Keys(ts[1..])
  {
    KeysTail(ts);
  }

  /** The existing keys keep their places, and the new keys come after
      them. */
  lemma {:induction false} MergeTechStackKeysOrder(existing: TechStack, incoming: TechStack)
    ensures IsPrefix(Keys(existing), Keys(MergeTechStack(existing, incoming)))
    decreases |incoming|
  {
    if |incoming| == 0 {
      assert Keys(existing)[..|Keys(existing)|] == Keys(existing);
    } else {
      var c0 := incoming[0].category;
      var next := Put(existing, c0, Dedupe(Lookup(existing, c0) + incoming[0].skills));
      PutLookup(existing, c0, Dedupe(Lookup(existing, c0) + incoming[0].skills));
      MergeTechStackKeysOrder(next, incoming[1..]);
      var a, b, c := Keys(existing), Keys(next), Keys(MergeTechStack(existing, incoming));
      assert IsPrefix(a, b) by {
        if c0 !in a { assert (a + [c0])[..|a|] == a; } else { assert b[..|b|] == b; }
      }
      assert c[..|a|] == c[..|b|][..|a|];
    }
  }

  /** The merged stack's keys are the existing and the incoming keys. */
  lemma {:induction false} MergeTechStackKeys(existing: TechStack, incoming: TechStack)
    ensures forall c :: c in Keys(MergeTechStack(existing, incoming)) <==> c in Keys(existing) || c in Keys(incoming)
    decreases |incoming|
  {
    if |incoming| > 0 {
      var c0 := incoming[0].category;
      var next := Put(existing, c0, Dedupe(Lookup(existing, c0) + incoming[0].skills));
      PutLookup(existing, c0, Dedupe(Lookup(existing, c0) + incoming[0].skills));
      MergeTechStackKeys(next, incoming[1..]);
      KeysTail(incoming);
    }
  }

  /** A well-formed stack stays well formed, and every merged category
      keeps its existing skills first and in their order, followed by the
      new ones. */
  lemma {:induction false} MergeTechStackWellFormed(existing: TechStack, incoming: TechStack)
    requires WellFormedStack(existing)
    ensures WellFormedStack(MergeTechStack(existing, incoming))
    decreases |incoming|
  {
    if |incoming| > 0 {
      var c0 := incoming[0].category;
      PutWellFormed(existing, c0, Dedupe(Lookup(existing, c0) + incoming[0].skills));
      MergeTechStackWellFormed(Put(existing, c0, Dedupe(Lookup(existing, c0) + incoming[0].skills)), incoming[1..]);
    }
  }

  /** In a well-formed stack a merged category is its existing skills,
      unchanged and first, then the incoming skills not already present. */
  lemma MergeTechStackExistingFirst(existing: TechStack, incoming: TechStack, c: string)
    requires WellFormedStack(existing) && UniqueKeys(incoming) && c in Keys(incoming)
    ensures Lookup(MergeTechStack(existing, incoming), c)
      == Lookup(existing, c) + DedupeAfter(Lookup(existing, c), Lookup(incoming, c))
  {
    MergeTechStackLookup(existing, incoming, c);
    LookupNoDups(existing, c);
    DedupeOfDistinct(Lookup(existing, c), Lookup(incoming, c));
  }

  // ---------------------------------------------------------------------
  // The whole record
  // ---------------------------------------------------------------------

  /** `r` holds `prev`'s value under every key absent from (or null in)
      the partial record `p`. */
  predicate AbsentUntouched(prev: FormData, p: PartialFormData, r: FormData)
  {
    (p.mainHeader.None? ==> r.mainHeader == prev.mainHeader)
    && (p.profileHeader.None? ==> r.profileHeader == prev.profileHeader)
    && (p.resumeText.None? ==> r.resumeText == prev.resumeText)
    && (p.name.None? ==> r.name == prev.name)
    && (p.githubUser.None? ==> r.githubUser == prev.githubUser)
    && (p.bio.None? ==> r.bio == prev.bio)
    && (p.myMission.None? ==> r.myMission == prev.myMission)
    && (p.techStack.None? ==> r.techStack == prev.techStack)
    && (p.skillStyle.None? ==> r.skillStyle == prev.skillStyle)
    && (p.badgeColor.None? ==> r.badgeColor == prev.badgeColor)
    && (p.socials.None? ==> r.socials == prev.socials)
    && (p.socialStyle.None? ==> r.socialStyle == prev.socialStyle)
    && (p.socialIconStyle.None? ==> r.socialIconStyle == prev.socialIconStyle)
    && (p.workExperience.None? ==> r.workExperience == prev.workExperience)
    && (p.projects.None? ==> r.projects == prev.projects)
    && (p.projectStyle.None? ==> r.projectStyle == prev.projectStyle)
    && (p.volunteering.None? ==> r.volunteering == prev.volunteering)
    && (p.education.None? ==> r.education == prev.education)
    && (p.certifications.None? ==> r.certifications == prev.certifications)
    && (p.research.None? ==> r.research == prev.research)
    && (p.awards.None? ==> r.awards == prev.awards)
    && (p.publications.None? ==> r.publications == prev.publications)
    && (p.talks.None? ==> r.talks == prev.talks)
    && (p.languages.None? ==> r.languages == prev.languages)
    && (p.hobbies.None? ==> r.hobbies == prev.hobbies)
    && (p.buyMeACoffee.None? ==> r.buyMeACoffee == prev.buyMeACoffee)
    && (p.kofi.None? ==> r.kofi == prev.kofi)
    && (p.blogUrl.None? ==> r.blogUrl == prev.blogUrl)
    && (p.customHtml.None? ==> r.customHtml == prev.customHtml)
    && (p.footerText.None? ==> r.footerText == prev.footerText)
    && (p.footerStyle.None? ==> r.footerStyle == prev.footerStyle)
    && (p.footerCardWidth.None? ==> r.footerCardWidth == prev.footerCardWidth)
    && (p.footerCardBorderRadius.None? ==> r.footerCardBorderRadius == prev.footerCardBorderRadius)
    && (p.footerCardBorderColor.None? ==> r.footerCardBorderColor == prev.footerCardBorderColor)
    && (p.hackathons.None? ==> r.hackathons == prev.hackathons)
    && (p.problemSolving.None? ==> r.problemSolving == prev.problemSolving)
    && (p.showVisitors.None? ==> r.showVisitors == prev.showVisitors)
    && (p.showStats.None? ==> r.showStats == prev.showStats)
    && (p.showTopLangs.None? ==> r.showTopLangs == prev.showTopLangs)
    && (p.showTrophies.None? ==> r.showTrophies == prev.showTrophies)
    && (p.showPinnedRepos.None? ==> r.showPinnedRepos == prev.showPinnedRepos)
    && (p.showProfileSummary.None? ==> r.showProfileSummary == prev.showProfileSummary)
    && (p.showProductiveTime.None? ==> r.showProductiveTime == prev.showProductiveTime)
    && (p.githubUtcOffset.None? ==> r.githubUtcOffset == prev.githubUtcOffset)
    && (p.showStreakStats.None? ==> r.showStreakStats == prev.showStreakStats)
    && (p.showActivityGraph.None? ==> r.showActivityGraph == prev.showActivityGraph)
    && (p.showWakatimeBadge.None? ==> r.showWakatimeBadge == prev.showWakatimeBadge)
    && (p.showWakatimeChart.None? ==> r.showWakatimeChart == prev.showWakatimeChart)
    && (p.wakatimeUser.None? ==> r.wakatimeUser == prev.wakatimeUser)
    && (p.statsTheme.None? ==> r.statsTheme == prev.statsTheme)
    && (p.showBorder.None? ==> r.showBorder == prev.showBorder)
    && (p.borderRadius.None? ==> r.borderRadius == prev.borderRadius)
    && (p.sectionOrder.None? ==> r.sectionOrder == prev.sectionOrder)
    && (p.sectionStyleConfig.None? ==> r.sectionStyleConfig == prev.sectionStyleConfig)
    && (p.statsCardType.None? ==> r.statsCardType == prev.statsCardType)
    && (p.borderColor.None? ==> r.borderColor == prev.borderColor)
    && (p.advancedMetrics.None? ==> r.advancedMetrics == prev.advancedMetrics)
  }

  /** Keys absent from the partial record, or null in it, are untouched. */
  lemma MergeKeepsAbsentKeys(prev: FormData, p: PartialFormData)
    ensures AbsentUntouched(prev, p, Merge(prev, p))
  {
  }

  /** Merging the empty partial record changes nothing. */
  lemma MergeNothing(prev: FormData)
    ensures Merge(prev, Nothing()) == prev
  {
  }
}
