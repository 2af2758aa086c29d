/** The update operations of the form-state store (App.tsx:27-117,
    626-631). Each handler is a state updater `prev => next`; here it is a
    function from the old record and the handler's arguments to the new
    record. Every one writes a single key of the record and leaves all the
    others as they were. */
module Store {
  import opened Wrappers
  import opened Types
  import opened Lists
  import opened TechStacks
  import opened Constants
  import opened Patches
  import JsString

  // ---------------------------------------------------------------------
  // handleFormChange: one top-level key replaced by a new value
  // ---------------------------------------------------------------------

  /** The `(field, value)` pairs the form passes to `handleFormChange`. */
  datatype FormChange =
    | SetText(textField: TextField, text: string)
    | SetFlag(flagField: FlagField, flag: bool)
    | SetNumber(numberField: NumberField, number: int)
    | SetSkillStyle(skillStyle: SkillStyle)
    | SetSocialStyle(socialStyle: SocialStyle)
    | SetProjectStyle(projectStyle: ProjectStyle)
    | SetFooterStyle(footerStyle: FooterStyle)
    | SetStatsCardType(statsCardType: StatsCardType)
    | SetTags(tagField: TagField, tags: seq<string>)
    | SetSectionOrder(order: seq<SectionKey>)
    | SetSocialIconStyle(iconStyle: SocialIconStyle)
    | SetSectionStyleConfig(sectionStyle: SectionStyleConfig)
  {
    function Key(): Key
    {
      match this
      case SetText(f, _) => f.Key()
      case SetFlag(f, _) => f.Key()
      case SetNumber(f, _) => f.Key()
      case SetSkillStyle(_) => KSkillStyle
      case SetSocialStyle(_) => KSocialStyle
      case SetProjectStyle(_) => KProjectStyle
      case SetFooterStyle(_) => KFooterStyle
      case SetStatsCardType(_) => KStatsCardType
      case SetTags(f, _) => f.Key()
      case SetSectionOrder(_) => KSectionOrder
      case SetSocialIconStyle(_) => KSocialIconStyle
      case SetSectionStyleConfig(_) => KSectionStyleConfig
    }
  }

  /** `r` holds the value the change writes under its key. */
  predicate Holds(r: FormData, c: FormChange)
  {
    match c
    case SetText(f, v) => r.Text(f) == v
    case SetFlag(f, v) => r.Flag(f) == v
    case SetNumber(f, v) => r.Number(f) == v
    case SetSkillStyle(v) => r.skillStyle == v
    case SetSocialStyle(v) => r.socialStyle == v
    case SetProjectStyle(v) => r.projectStyle == v
    case SetFooterStyle(v) => r.footerStyle == v
    case SetStatsCardType(v) => r.statsCardType == v
    case SetTags(f, v) => r.Tags(f) == v
    case SetSectionOrder(v) => r.sectionOrder == v
    case SetSocialIconStyle(v) => r.socialIconStyle == v
    case SetSectionStyleConfig(v) => r.sectionStyleConfig == v
  }

  /** `{ ...prev, [field]: value }` */
  function HandleFormChange(d: FormData, c: FormChange): (r: FormData)
    ensures Holds(r, c)
  {
    match c
    case SetText(f, v) => SetTextField(d, f, v)
    case SetFlag(f, v) => SetFlagField(d, f, v)
    case SetNumber(f, v) => SetNumberField(d, f, v)
    case SetSkillStyle(v) => d.WithSkillStyle(v)
    case SetSocialStyle(v) => d.WithSocialStyle(v)
    case SetProjectStyle(v) => d.WithProjectStyle(v)
    case SetFooterStyle(v) => d.WithFooterStyle(v)
    case SetStatsCardType(v) => d.WithStatsCardType(v)
    case SetTags(f, v) => SetTagsField(d, f, v)
    case SetSectionOrder(v) => d.WithSectionOrder(v)
    case SetSocialIconStyle(v) => d.WithSocialIconStyle(v)
    case SetSectionStyleConfig(v) => d.WithSectionStyleConfig(v)
  }

  /** A form change writes its own key and no other. */
  lemma FormChangeFrame(d: FormData, c: FormChange)
    ensures SameExcept(d, HandleFormChange(d, c), c.Key())
  {
    match c
    case SetText(f, v) =>
    case SetFlag(f, v) =>
    case SetNumber(f, v) =>
    case SetSkillStyle(v) =>
    case SetSocialStyle(v) =>
    case SetProjectStyle(v) =>
    case SetFooterStyle(v) =>
    case SetStatsCardType(v) =>
    case SetTags(f, v) =>
    case SetSectionOrder(v) =>
    case SetSocialIconStyle(v) =>
    case SetSectionStyleConfig(v) =>
  }

  function SetTextField(d: FormData, f: TextField, v: string): (r: FormData)
    ensures SameExcept(d, r, f.Key()) && r.Text(f) == v
  {
    match f
    case FResumeText => d.WithResumeText(v)
    case FName => d.WithName(v)
    case FGithubUser => d.WithGithubUser(v)
    case FBio => d.WithBio(v)
    case FMyMission => d.WithMyMission(v)
    case FBadgeColor => d.WithBadgeColor(v)
    case FBuyMeACoffee => d.WithBuyMeACoffee(v)
    case FKofi => d.WithKofi(v)
    case FBlogUrl => d.WithBlogUrl(v)
    case FCustomHtml => d.WithCustomHtml(v)
    case FFooterText => d.WithFooterText(v)
    case FFooterCardBorderColor => d.WithFooterCardBorderColor(v)
    case FGithubUtcOffset => d.WithGithubUtcOffset(v)
    case FWakatimeUser => d.WithWakatimeUser(v)
    case FStatsTheme => d.WithStatsTheme(v)
    case FBorderColor => d.WithBorderColor(v)
  }

  function SetNumberField(d: FormData, f: NumberField, v: int): (r: FormData)
    ensures SameExcept(d, r, f.Key()) && r.Number(f) == v
  {
    match f
    case FFooterCardWidth => d.WithFooterCardWidth(v)
    case FFooterCardBorderRadius => d.WithFooterCardBorderRadius(v)
    case FBorderRadius => d.WithBorderRadius(v)
  }

  function SetTagsField(d: FormData, f: TagField, v: seq<string>): (r: FormData)
    ensures SameExcept(d, r, f.Key()) && r.Tags(f) == v
  {
    match f
    case FLanguages => d.WithLanguages(v)
    case FHobbies => d.WithHobbies(v)
  }

  function SetFlagField(d: FormData, f: FlagField, v: bool): (r: FormData)
    ensures SameExcept(d, r, f.Key()) && r.Flag(f) == v
  {
    match f
    case FShowVisitors => d.WithShowVisitors(v)
    case FShowStats => d.WithShowStats(v)
    case FShowTopLangs => d.WithShowTopLangs(v)
    case FShowTrophies => d.WithShowTrophies(v)
    case FShowPinnedRepos => d.WithShowPinnedRepos(v)
    case FShowProfileSummary => d.WithShowProfileSummary(v)
    case FShowProductiveTime => d.WithShowProductiveTime(v)
    case FShowStreakStats => d.WithShowStreakStats(v)
    case FShowActivityGraph => d.WithShowActivityGraph(v)
    case FShowWakatimeBadge => d.WithShowWakatimeBadge(v)
    case FShowWakatimeChart => d.WithShowWakatimeChart(v)
    case FShowBorder => d.WithShowBorder(v)
  }

  // ---------------------------------------------------------------------
  // The nested header configurations
  // ---------------------------------------------------------------------

  /** `{ ...prev, mainHeader: { ...prev.mainHeader, [field]: value } }`,
      with the `[field]: value` pair given as a patch. */
  function HandleMainHeaderChange(d: FormData, p: MainHeaderPatch): (r: FormData)
    ensures SameExcept(d, r, KMainHeader) && r.mainHeader == p.ApplyTo(d.mainHeader)
  {
    d.WithMainHeader(p.ApplyTo(d.mainHeader))
  }

  /** `{ ...prev, profileHeader: { ...prev.profileHeader, [field]: value } }` */
  function HandleProfileHeaderChange(d: FormData, p: ProfileHeaderPatch): (r: FormData)
    ensures SameExcept(d, r, KProfileHeader) && r.profileHeader == p.ApplyTo(d.profileHeader)
  {
    d.WithProfileHeader(p.ApplyTo(d.profileHeader))
  }

  /** `{ ...m, [metric]: !m[metric] }` */
  function FlipMetric(a: AdvancedMetrics, m: Metric): (r: AdvancedMetrics)
    ensures r.Get(m) == !a.Get(m)
    ensures forall n | n != m :: r.Get(n) == a.Get(n)
  {
    match m
    case MetricLanguages => a.(languages := !a.languages)
    case MetricHabits => a.(habits := !a.habits)
    case MetricIsocalendar => a.(isocalendar := !a.isocalendar)
    case MetricSkyline => a.(skyline := !a.skyline)
  }

  /** Flips one of the four advanced-metrics flags. */
  function HandleAdvancedMetricsToggle(d: FormData, m: Metric): (r: FormData)
    ensures SameExcept(d, r, KAdvancedMetrics)
    ensures r.advancedMetrics.Get(m) == !d.advancedMetrics.Get(m)
    ensures forall n | n != m :: r.advancedMetrics.Get(n) == d.advancedMetrics.Get(n)
  {
    d.WithAdvancedMetrics(FlipMetric(d.advancedMetrics, m))
  }

  /** Toggling a metric twice restores the record. */
  lemma AdvancedMetricsToggleTwice(d: FormData, m: Metric)
    ensures HandleAdvancedMetricsToggle(HandleAdvancedMetricsToggle(d, m), m) == d
  {
    assert FlipMetric(FlipMetric(d.advancedMetrics, m), m) == d.advancedMetrics;
  }

  // ---------------------------------------------------------------------
  // The twelve lists of entries
  // ---------------------------------------------------------------------

  datatype ListKey =
    | LSocials | LWorkExperience | LProjects | LVolunteering | LEducation
    | LCertifications | LResearch | LAwards | LPublications | LTalks
    | LHackathons | LProblemSolving
  {
    function Key(): Key
    {
      match this
      case LSocials => KSocials
      case LWorkExperience => KWorkExperience
      case LProjects => KProjects
      case LVolunteering => KVolunteering
      case LEducation => KEducation
      case LCertifications => KCertifications
      case LResearch => KResearch
      case LAwards => KAwards
      case LPublications => KPublications
      case LTalks => KTalks
      case LHackathons => KHackathons
      case LProblemSolving => KProblemSolving
    }
  }

  /** A text field of an entry of one of the lists: the `(field, itemField)`
      pair of `handleListChange`. */
  datatype EntryField =
    | OfSocial(social: SocialField)
    | OfWork(work: WorkField)
    | OfProject(project: ProjectField)
    | OfVolunteering(volunteering: VolunteeringField)
    | OfEducation(education: EducationField)
    | OfCertification(certification: CertificationField)
    | OfResearch(research: ResearchField)
    | OfAward(award: AwardField)
    | OfPublication(publication: PublicationField)
    | OfTalk(talk: TalkField)
    | OfHackathon(hackathon: HackathonField)
    | OfProblemSolving(problemSolving: ProblemSolvingField)
  {
    function List(): ListKey
    {
      match this
      case OfSocial(_) => LSocials
      case OfWork(_) => LWorkExperience
      case OfProject(_) => LProjects
      case OfVolunteering(_) => LVolunteering
      case OfEducation(_) => LEducation
      case OfCertification(_) => LCertifications
      case OfResearch(_) => LResearch
      case OfAward(_) => LAwards
      case OfPublication(_) => LPublications
      case OfTalk(_) => LTalks
      case OfHackathon(_) => LHackathons
      case OfProblemSolving(_) => LProblemSolving
    }
  }

  /** `after` is `before` with, at index `i` only, field `f` set to `v` and
      every other field of that entry kept; an index outside the list
      changes nothing. */
  ghost predicate FieldEdited<T, F(!new)>(before: seq<T>, after: seq<T>, i: int, get: (T, F) -> string, f: F, v: string)
  {
    |after| == |before|
    && (forall j | 0 <= j < |before| && j != i :: after[j] == before[j])
    && (0 <= i < |before| ==> get(after[i], f) == v && forall g | g != f :: get(after[i], g) == get(before[i], g))
  }

  /** The list `f` belongs to went from `d` to `r` by `FieldEdited`; a
      project also keeps its tech list and its top-project flag. */
  ghost predicate EntryEdited(d: FormData, r: FormData, index: int, f: EntryField, value: string)
  {
    match f
    case OfSocial(g) => FieldEdited(d.socials, r.socials, index, (e: SocialLink, h: SocialField) => e.Get(h), g, value)
    case OfWork(g) => FieldEdited(d.workExperience, r.workExperience, index, (e: WorkEntry, h: WorkField) => e.Get(h), g, value)
    case OfProject(g) =>
      && FieldEdited(d.projects, r.projects, index, (e: Project, h: ProjectField) => e.Get(h), g, value)
      && (0 <= index < |d.projects| ==>
            r.projects[index].tech == d.projects[index].tech
            && r.projects[index].isTopProject == d.projects[index].isTopProject)
    case OfVolunteering(g) => FieldEdited(d.volunteering, r.volunteering, index, (e: Volunteering, h: VolunteeringField) => e.Get(h), g, value)
    case OfEducation(g) => FieldEdited(d.education, r.education, index, (e: EducationEntry, h: EducationField) => e.Get(h), g, value)
    case OfCertification(g) => FieldEdited(d.certifications, r.certifications, index, (e: Certification, h: CertificationField) => e.Get(h), g, value)
    case OfResearch(g) => FieldEdited(d.research, r.research, index, (e: ResearchEntry, h: ResearchField) => e.Get(h), g, value)
    case OfAward(g) => FieldEdited(d.awards, r.awards, index, (e: Award, h: AwardField) => e.Get(h), g, value)
    case OfPublication(g) => FieldEdited(d.publications, r.publications, index, (e: Publication, h: PublicationField) => e.Get(h), g, value)
    case OfTalk(g) => FieldEdited(d.talks, r.talks, index, (e: Talk, h: TalkField) => e.Get(h), g, value)
    case OfHackathon(g) => FieldEdited(d.hackathons, r.hackathons, index, (e: Hackathon, h: HackathonField) => e.Get(h), g, value)
    case OfProblemSolving(g) => FieldEdited(d.problemSolving, r.problemSolving, index, (e: ProblemSolvingProfile, h: ProblemSolvingField) => e.Get(h), g, value)
  }

  /** `prev[field].map((item, i) => i === index ? { ...item, [itemField]: value } : item)` */
  function HandleListChange(d: FormData, index: int, f: EntryField, value: string): (r: FormData)
  {
    match f
    case OfSocial(g) => d.WithSocials(UpdateAt(d.socials, index, (e: SocialLink) => e.With(g, value)))
    case OfWork(g) => d.WithWorkExperience(UpdateAt(d.workExperience, index, (e: WorkEntry) => e.With(g, value)))
    case OfProject(g) => d.WithProjects(UpdateAt(d.projects, index, (e: Project) => e.With(g, value)))
    case OfVolunteering(g) => d.WithVolunteering(UpdateAt(d.volunteering, index, (e: Volunteering) => e.With(g, value)))
    case OfEducation(g) => d.WithEducation(UpdateAt(d.education, index, (e: EducationEntry) => e.With(g, value)))
    case OfCertification(g) => d.WithCertifications(UpdateAt(d.certifications, index, (e: Certification) => e.With(g, value)))
    case OfResearch(g) => d.WithResearch(UpdateAt(d.research, index, (e: ResearchEntry) => e.With(g, value)))
    case OfAward(g) => d.WithAwards(UpdateAt(d.awards, index, (e: Award) => e.With(g, value)))
    case OfPublication(g) => d.WithPublications(UpdateAt(d.publications, index, (e: Publication) => e.With(g, value)))
    case OfTalk(g) => d.WithTalks(UpdateAt(d.talks, index, (e: Talk) => e.With(g, value)))
    case OfHackathon(g) => d.WithHackathons(UpdateAt(d.hackathons, index, (e: Hackathon) => e.With(g, value)))
    case OfProblemSolving(g) => d.WithProblemSolving(UpdateAt(d.problemSolving, index, (e: ProblemSolvingProfile) => e.With(g, value)))
  }

  /** An entry edit sets the one field of the one entry, and writes no
      other key. */
  lemma ListChangeSpec(d: FormData, index: int, f: EntryField, value: string)
    ensures SameExcept(d, HandleListChange(d, index, f, value), f.List().Key())
    ensures EntryEdited(d, HandleListChange(d, index, f, value), index, f, value)
  {
    match f
    case OfSocial(_) =>
    case OfWork(_) =>
    case OfProject(_) =>
    case OfVolunteering(_) =>
    case OfEducation(_) =>
    case OfCertification(_) =>
    case OfResearch(_) =>
    case OfAward(_) =>
    case OfPublication(_) =>
    case OfTalk(_) =>
    case OfHackathon(_) =>
    case OfProblemSolving(_) =>
  }

  /** `handleListChangeArray('projects', index, 'tech', tech)`: the one
      array-valued entry field. */
  function HandleProjectTechChange(d: FormData, index: int, tech: seq<string>): (r: FormData)
    ensures SameExcept(d, r, KProjects)
    ensures |r.projects| == |d.projects|
    ensures forall j | 0 <= j < |d.projects| && j != index :: r.projects[j] == d.projects[j]
    ensures 0 <= index < |d.projects| ==>
      r.projects[index].tech == tech
      && r.projects[index].isTopProject == d.projects[index].isTopProject
      && forall g :: r.projects[index].Get(g) == d.projects[index].Get(g)
  {
    d.WithProjects(UpdateAt(d.projects, index, (p: Project) => p.(tech := tech)))
  }

  /** `handleListToggle('projects', index, 'isTopProject')`: the one boolean
      entry field. */
  function HandleTopProjectToggle(d: FormData, index: int): (r: FormData)
    ensures SameExcept(d, r, KProjects)
    ensures |r.projects| == |d.projects|
    ensures forall j | 0 <= j < |d.projects| && j != index :: r.projects[j] == d.projects[j]
    ensures 0 <= index < |d.projects| ==>
      r.projects[index].isTopProject == !d.projects[index].isTopProject
      && r.projects[index].tech == d.projects[index].tech
      && forall g :: r.projects[index].Get(g) == d.projects[index].Get(g)
  {
    d.WithProjects(UpdateAt(d.projects, index, (p: Project) => p.(isTopProject := !p.isTopProject)))
  }

  /** Toggling the same project twice restores the record. */
  lemma TopProjectToggleTwice(d: FormData, index: int)
    ensures HandleTopProjectToggle(HandleTopProjectToggle(d, index), index) == d
  {
    var once := HandleTopProjectToggle(d, index);
    var twice := HandleTopProjectToggle(once, index);
    assert twice.projects == d.projects by {
      if 0 <= index < |d.projects| {
        assert twice.projects[index] == d.projects[index];
      }
    }
    assert once == d.(projects := once.projects);
    assert twice == once.(projects := twice.projects);
  }

  /** A new entry for one of the lists. */
  datatype Item =
    | SocialItem(social: SocialLink)
    | WorkItem(work: WorkEntry)
    | ProjectItem(project: Project)
    | VolunteeringItem(volunteering: Volunteering)
    | EducationItem(education: EducationEntry)
    | CertificationItem(certification: Certification)
    | ResearchItem(research: ResearchEntry)
    | AwardItem(award: Award)
    | PublicationItem(publication: Publication)
    | TalkItem(talk: Talk)
    | HackathonItem(hackathon: Hackathon)
    | ProblemSolvingItem(problemSolving: ProblemSolvingProfile)
  {
    function List(): ListKey
    {
      match this
      case SocialItem(_) => LSocials
      case WorkItem(_) => LWorkExperience
      case ProjectItem(_) => LProjects
      case VolunteeringItem(_) => LVolunteering
      case EducationItem(_) => LEducation
      case CertificationItem(_) => LCertifications
      case ResearchItem(_) => LResearch
      case AwardItem(_) => LAwards
      case PublicationItem(_) => LPublications
      case TalkItem(_) => LTalks
      case HackathonItem(_) => LHackathons
      case ProblemSolvingItem(_) => LProblemSolving
    }
  }

  /** `after` is `before` with `x` added at the end. */
  predicate Appended<T(==)>(before: seq<T>, after: seq<T>, x: T)
  {
    after == before + [x]
  }

  /** The list `item` belongs to went from `d` to `r` by `Appended`. */
  predicate ItemAppended(d: FormData, r: FormData, item: Item)
  {
    match item
    case SocialItem(x) => Appended(d.socials, r.socials, x)
    case WorkItem(x) => Appended(d.workExperience, r.workExperience, x)
    case ProjectItem(x) => Appended(d.projects, r.projects, x)
    case VolunteeringItem(x) => Appended(d.volunteering, r.volunteering, x)
    case EducationItem(x) => Appended(d.education, r.education, x)
    case CertificationItem(x) => Appended(d.certifications, r.certifications, x)
    case ResearchItem(x) => Appended(d.research, r.research, x)
    case AwardItem(x) => Appended(d.awards, r.awards, x)
    case PublicationItem(x) => Appended(d.publications, r.publications, x)
    case TalkItem(x) => Appended(d.talks, r.talks, x)
    case HackathonItem(x) => Appended(d.hackathons, r.hackathons, x)
    case ProblemSolvingItem(x) => Appended(d.problemSolving, r.problemSolving, x)
  }

  /** `{ ...prev, [field]: [...prev[field], newItem] }` */
  function AddListItem(d: FormData, item: Item): (r: FormData)
    ensures ItemAppended(d, r, item)
  {
    match item
    case SocialItem(x) => d.WithSocials(d.socials + [x])
    case WorkItem(x) => d.WithWorkExperience(d.workExperience + [x])
    case ProjectItem(x) => d.WithProjects(d.projects + [x])
    case VolunteeringItem(x) => d.WithVolunteering(d.volunteering + [x])
    case EducationItem(x) => d.WithEducation(d.education + [x])
    case CertificationItem(x) => d.WithCertifications(d.certifications + [x])
    case ResearchItem(x) => d.WithResearch(d.research + [x])
    case AwardItem(x) => d.WithAwards(d.awards + [x])
    case PublicationItem(x) => d.WithPublications(d.publications + [x])
    case TalkItem(x) => d.WithTalks(d.talks + [x])
    case HackathonItem(x) => d.WithHackathons(d.hackathons + [x])
    case ProblemSolvingItem(x) => d.WithProblemSolving(d.problemSolving + [x])
  }

  /** Adding an entry writes the one list and no other key. */
  lemma AddListItemFrame(d: FormData, item: Item)
    ensures SameExcept(d, AddListItem(d, item), item.List().Key())
  {
    match item
    case SocialItem(_) =>
    case WorkItem(_) =>
    case ProjectItem(_) =>
    case VolunteeringItem(_) =>
    case EducationItem(_) =>
    case CertificationItem(_) =>
    case ResearchItem(_) =>
    case AwardItem(_) =>
    case PublicationItem(_) =>
    case TalkItem(_) =>
    case HackathonItem(_) =>
    case ProblemSolvingItem(_) =>
  }

  /** `after` is `before` without its entry at `i`, the later entries moved
      down by one; an index outside the list changes nothing. */
  predicate RemovedAt<T(==)>(before: seq<T>, after: seq<T>, i: int)
  {
    if 0 <= i < |before| then |after| == |before| - 1 && after[..i] == before[..i] && after[i..] == before[i + 1..]
    else after == before
  }

  /** List `l` went from `d` to `r` by `RemovedAt`. */
  predicate ItemRemoved(d: FormData, r: FormData, l: ListKey, index: int)
  {
    match l
    case LSocials => RemovedAt(d.socials, r.socials, index)
    case LWorkExperience => RemovedAt(d.workExperience, r.workExperience, index)
    case LProjects => RemovedAt(d.projects, r.projects, index)
    case LVolunteering => RemovedAt(d.volunteering, r.volunteering, index)
    case LEducation => RemovedAt(d.education, r.education, index)
    case LCertifications => RemovedAt(d.certifications, r.certifications, index)
    case LResearch => RemovedAt(d.research, r.research, index)
    case LAwards => RemovedAt(d.awards, r.awards, index)
    case LPublications => RemovedAt(d.publications, r.publications, index)
    case LTalks => RemovedAt(d.talks, r.talks, index)
    case LHackathons => RemovedAt(d.hackathons, r.hackathons, index)
    case LProblemSolving => RemovedAt(d.problemSolving, r.problemSolving, index)
  }

  /** `{ ...prev, [field]: prev[field].filter((_, i) => i !== index) }` */
  function RemoveListItem(d: FormData, l: ListKey, index: int): (r: FormData)
  {
    match l
    case LSocials => d.WithSocials(RemoveAt(d.socials, index))
    case LWorkExperience => d.WithWorkExperience(RemoveAt(d.workExperience, index))
    case LProjects => d.WithProjects(RemoveAt(d.projects, index))
    case LVolunteering => d.WithVolunteering(RemoveAt(d.volunteering, index))
    case LEducation => d.WithEducation(RemoveAt(d.education, index))
    case LCertifications => d.WithCertifications(RemoveAt(d.certifications, index))
    case LResearch => d.WithResearch(RemoveAt(d.research, index))
    case LAwards => d.WithAwards(RemoveAt(d.awards, index))
    case LPublications => d.WithPublications(RemoveAt(d.publications, index))
    case LTalks => d.WithTalks(RemoveAt(d.talks, index))
    case LHackathons => d.WithHackathons(RemoveAt(d.hackathons, index))
    case LProblemSolving => d.WithProblemSolving(RemoveAt(d.problemSolving, index))
  }

  /** Removing an entry drops it from the one list, and writes no other
      key. */
  lemma RemoveListItemSpec(d: FormData, l: ListKey, index: int)
    ensures SameExcept(d, RemoveListItem(d, l, index), l.Key())
    ensures ItemRemoved(d, RemoveListItem(d, l, index), l, index)
  {
    match l
    case LSocials =>
    case LWorkExperience =>
    case LProjects =>
    case LVolunteering =>
    case LEducation =>
    case LCertifications =>
    case LResearch =>
    case LAwards =>
    case LPublications =>
    case LTalks =>
    case LHackathons =>
    case LProblemSolving =>
  }

  function ListLength(d: FormData, l: ListKey): nat
  {
    match l
    case LSocials => |d.socials|
    case LWorkExperience => |d.workExperience|
    case LProjects => |d.projects|
    case LVolunteering => |d.volunteering|
    case LEducation => |d.education|
    case LCertifications => |d.certifications|
    case LResearch => |d.research|
    case LAwards => |d.awards|
    case LPublications => |d.publications|
    case LTalks => |d.talks|
    case LHackathons => |d.hackathons|
    case LProblemSolving => |d.problemSolving|
  }

  /** Removing the entry just added restores the list it went into. */
  lemma {:induction false} AddThenRemove(d: FormData, item: Item)
    ensures ItemRemoved(AddListItem(d, item), d, item.List(), ListLength(d, item.List()))
  {
    match item
    case SocialItem(x) => assert (d.socials + [x])[..|d.socials|] == d.socials;
    case WorkItem(x) => assert (d.workExperience + [x])[..|d.workExperience|] == d.workExperience;
    case ProjectItem(x) => assert (d.projects + [x])[..|d.projects|] == d.projects;
    case VolunteeringItem(x) => assert (d.volunteering + [x])[..|d.volunteering|] == d.volunteering;
    case EducationItem(x) => assert (d.education + [x])[..|d.education|] == d.education;
    case CertificationItem(x) => assert (d.certifications + [x])[..|d.certifications|] == d.certifications;
    case ResearchItem(x) => assert (d.research + [x])[..|d.research|] == d.research;
    case AwardItem(x) => assert (d.awards + [x])[..|d.awards|] == d.awards;
    case PublicationItem(x) => assert (d.publications + [x])[..|d.publications|] == d.publications;
    case TalkItem(x) => assert (d.talks + [x])[..|d.talks|] == d.talks;
    case HackathonItem(x) => assert (d.hackathons + [x])[..|d.hackathons|] == d.hackathons;
    case ProblemSolvingItem(x) => assert (d.problemSolving + [x])[..|d.problemSolving|] == d.problemSolving;
  }

  // ---------------------------------------------------------------------
  // Social platform replacement
  // ---------------------------------------------------------------------

  /** The entries after `handleSocialLinkPlatformChange(index,
      platformName)`: an unknown platform name changes nothing; a known one
      replaces the whole entry at `index` by the platform's name, icon and
      base URL. Assigning at index `|socials|` appends; a negative index
      writes a property that is not an array element, so the entries stay
      as they were. */
  function SetPlatform(socials: seq<SocialLink>, index: int, platformName: string): (r: seq<SocialLink>)
    requires index <= |socials|
    ensures FindSocialPlatform(platformName).None? || index < 0 ==> r == socials
    ensures FindSocialPlatform(platformName).Some? && 0 <= index ==>
      && |r| == (if index == |socials| then |socials| + 1 else |socials|)
      && (forall j | 0 <= j < |socials| && j != index :: r[j] == socials[j])
      && r[index].platform == platformName
      && r[index] == PlatformLink(FindSocialPlatform(platformName).value)
  {
    match FindSocialPlatform(platformName)
    case None => socials
    case Some(p) =>
      if index < 0 then socials
      else if index == |socials| then socials + [PlatformLink(p)]
      else socials[index := PlatformLink(p)]
  }

  /** `{ platform: platform.name, icon: platform.icon, url: platform.baseUrl }` */
  function PlatformLink(p: SocialPlatformInfo): SocialLink
  {
    SocialLink(platform := p.name, url := p.baseUrl, icon := p.icon)
  }

  function HandleSocialPlatformChange(d: FormData, index: int, platformName: string): (r: FormData)
    requires index <= |d.socials|
    ensures SameExcept(d, r, KSocials) && r.socials == SetPlatform(d.socials, index, platformName)
  {
    d.WithSocials(SetPlatform(d.socials, index, platformName))
  }

  // ---------------------------------------------------------------------
  // Tech stack selection
  // ---------------------------------------------------------------------

  /** `handleTechStackToggle(category, skillName)`, which writes only the
      tech stack (see `TechStacks.ToggleSkill`). */
  function HandleTechStackToggle(d: FormData, category: string, skill: string): (r: FormData)
    ensures SameExcept(d, r, KTechStack)
    ensures r.techStack == ToggleSkill(d.techStack, category, skill)
  {
    d.WithTechStack(ToggleSkill(d.techStack, category, skill))
  }

  /** `addCustomSkill(category, skillName)`: nothing happens when the name
      is blank once trimmed or already selected; otherwise the untrimmed
      name is appended to the category. */
  function AddCustomSkill(d: FormData, category: string, skill: string): (r: FormData)
    ensures JsString.Trim(skill) == "" || skill in Lookup(d.techStack, category) ==> r == d
    ensures JsString.Trim(skill) != "" && skill !in Lookup(d.techStack, category) ==>
      SameExcept(d, r, KTechStack)
      && Lookup(r.techStack, category) == Lookup(d.techStack, category) + [skill]
      && forall c | c != category :: Lookup(r.techStack, c) == Lookup(d.techStack, c)
  {
    ToggleSkillLookup(d.techStack, category, skill);
    if JsString.Trim(skill) == "" || skill in Lookup(d.techStack, category) then d
    else HandleTechStackToggle(d, category, skill)
  }

  // ---------------------------------------------------------------------
  // Reset
  // ---------------------------------------------------------------------

  /** `handleResetToDefaults`: once the user confirms, the record becomes
      `INITIAL_FORM_DATA`; otherwise it is left alone. The confirmation
      dialog is the `confirmed` argument. */
  function HandleResetToDefaults(d: FormData, confirmed: bool): (r: FormData)
    ensures confirmed ==> r == InitialFormData()
    ensures !confirmed ==> r == d
  {
    if confirmed then InitialFormData() else d
  }

  /** After a reset the section order is again free of repeats and holds
      `appearance`, and every category of the stack again has distinct
      skills, whatever the edits before. */
  lemma ResetIsWellFormed(d: FormData)
    ensures NoDups(HandleResetToDefaults(d, true).sectionOrder)
    ensures WellFormedStack(HandleResetToDefaults(d, true).techStack)
  {
    SectionOrdersDistinct();
    InitialTechStackShape();
    DefaultSelectionsInCatalog();
  }
}
