/** The shapes of the generator's data (types.ts): the list entries, the
    nested header and style configurations, the enumerations, and the single
    flat `FormData` record the whole application edits. Each list entry has
    an enumeration of its editable text fields with `Get`/`With` accessors,
    which is how the field-name-generic handlers address it. */
module Types {

  // ---------------------------------------------------------------------
  // Enumerations
  // ---------------------------------------------------------------------

  /** The sixteen tech-stack display styles (types.ts:10-14). */
  datatype SkillStyle =
    | Badge | BadgePlastic | BadgeFlat | BadgeFlatSquare | BadgeSocial
    | Icon | IconGrid
    | Star | IconText | Table | Pills
    | ListBullet | ListComma | ListDot | ListPipe | ListNewline
  {
    /** The style's name as the form stores it. */
    function Name(): string
    {
      match this
      case Badge => "badge"
      case BadgePlastic => "badge-plastic"
      case BadgeFlat => "badge-flat"
      case BadgeFlatSquare => "badge-flat-square"
      case BadgeSocial => "badge-social"
      case Icon => "icon"
      case IconGrid => "icon-grid"
      case Star => "star"
      case IconText => "icon-text"
      case Table => "table"
      case Pills => "pills"
      case ListBullet => "list-bullet"
      case ListComma => "list-comma"
      case ListDot => "list-dot"
      case ListPipe => "list-pipe"
      case ListNewline => "list-newline"
    }
  }

  datatype SocialStyle = SocialBadge | SocialIcon | SocialList
  datatype FooterStyle = Simple | Card | Centered
  datatype ProjectStyle = ProjectList | ProjectBox
  datatype StatsCardType = Standard | Advanced
  datatype CardStyle = DefaultStyle | CardStyle

  /** The five banner aspect ratios (types.ts:28). */
  datatype AspectRatio = R1x1 | R16x9 | R9x16 | R4x3 | R3x4
  {
    /** The two numbers of `'w:h'.split(':').map(Number)`. */
    function Parts(): (int, int)
    {
      match this
      case R1x1 => (1, 1)
      case R16x9 => (16, 9)
      case R9x16 => (9, 16)
      case R4x3 => (4, 3)
      case R3x4 => (3, 4)
    }
  }

  /** The thirty section keys (types.ts:141-171). */
  datatype SectionKey =
    | MainHeaderBanner | ProfileHeaderBanner | Appearance | AiAssistant
    | BasicInfo | MyMission | GithubStats | GithubAnalytics | Socials
    | TechStack | WorkExperience | Projects | FeaturedProjects | Volunteering
    | Education | Certifications | Research | Awards | Publications | Talks
    | Languages | Hobbies | Hackathons | ProblemSolving | SupportMe
    | BlogPosts | CustomHtml | Footer | Settings | SectionLayout

  /** The four optional panels of the advanced statistics card. */
  datatype Metric = MetricLanguages | MetricHabits | MetricIsocalendar | MetricSkyline

  // ---------------------------------------------------------------------
  // List entries
  // ---------------------------------------------------------------------

  datatype SocialField = SocialPlatform | SocialUrl | SocialIconName
  datatype SocialLink = SocialLink(platform: string, url: string, icon: string)
  {
    function Get(f: SocialField): string
    {
      match f
      case SocialPlatform => platform
      case SocialUrl => url
      case SocialIconName => icon
    }

    /** `{ ...item, [f]: v }` */
    function With(f: SocialField, v: string): (r: SocialLink)
      ensures r.Get(f) == v
      ensures forall g | g != f :: r.Get(g) == Get(g)
    {
      match f
      case SocialPlatform => this.(platform := v)
      case SocialUrl => this.(url := v)
      case SocialIconName => this.(icon := v)
    }
  }

  datatype WorkField = WorkCompany | WorkTitle | WorkDuration | WorkDescription
  datatype WorkEntry = WorkEntry(company: string, title: string, duration: string, description: string)
  {
    function Get(f: WorkField): string
    {
      match f
      case WorkCompany => company
      case WorkTitle => title
      case WorkDuration => duration
      case WorkDescription => description
    }

    function With(f: WorkField, v: string): (r: WorkEntry)
      ensures r.Get(f) == v
      ensures forall g | g != f :: r.Get(g) == Get(g)
    {
      match f
      case WorkCompany => this.(company := v)
      case WorkTitle => this.(title := v)
      case WorkDuration => this.(duration := v)
      case WorkDescription => this.(description := v)
    }
  }

  /** The text fields of a project; `tech` and `isTopProject` have their own
      handlers. */
  datatype ProjectField =
    | ProjectName | ProjectDescription | ProjectRepoUrl | ProjectLiveUrl
    | ProjectCategory | ProjectThumbnailUrl | ProjectCustomBadges

  datatype Project = Project(
    name: string, description: string, repoUrl: string, liveUrl: string,
    tech: seq<string>, isTopProject: bool, category: string,
    thumbnailUrl: string, customBadges: string)
  {
    function Get(f: ProjectField): string
    {
      match f
      case ProjectName => name
      case ProjectDescription => description
      case ProjectRepoUrl => repoUrl
      case ProjectLiveUrl => liveUrl
      case ProjectCategory => category
      case ProjectThumbnailUrl => thumbnailUrl
      case ProjectCustomBadges => customBadges
    }

    function With(f: ProjectField, v: string): (r: Project)
      ensures r.Get(f) == v
      ensures forall g | g != f :: r.Get(g) == Get(g)
      ensures r.tech == tech && r.isTopProject == isTopProject
    {
      match f
      case ProjectName => this.(name := v)
      case ProjectDescription => this.(description := v)
      case ProjectRepoUrl => this.(repoUrl := v)
      case ProjectLiveUrl => this.(liveUrl := v)
      case ProjectCategory => this.(category := v)
      case ProjectThumbnailUrl => this.(thumbnailUrl := v)
      case ProjectCustomBadges => this.(customBadges := v)
    }
  }

  datatype EducationField = EduInstitution | EduDegree | EduDuration
  datatype EducationEntry = EducationEntry(institution: string, degree: string, duration: string)
  {
    function Get(f: EducationField): string
    {
      match f
      case EduInstitution => institution
      case EduDegree => degree
      case EduDuration => duration
    }

    function With(f: EducationField, v: string): (r: EducationEntry)
      ensures r.Get(f) == v
      ensures forall g | g != f :: r.Get(g) == Get(g)
    {
      match f
      case EduInstitution => this.(institution := v)
      case EduDegree => this.(degree := v)
      case EduDuration => this.(duration := v)
    }
  }

  datatype CertificationField = CertName | CertIssuer | CertDate | CertUrl
  datatype Certification = Certification(name: string, issuer: string, date: string, url: string)
  {
    function Get(f: CertificationField): string
    {
      match f
      case CertName => name
      case CertIssuer => issuer
      case CertDate => date
      case CertUrl => url
    }

    function With(f: CertificationField, v: string): (r: Certification)
      ensures r.Get(f) == v
      ensures forall g | g != f :: r.Get(g) == Get(g)
    {
      match f
      case CertName => this.(name := v)
      case CertIssuer => this.(issuer := v)
      case CertDate => this.(date := v)
      case CertUrl => this.(url := v)
    }
  }

  datatype VolunteeringField = VolOrganization | VolRole | VolDuration | VolDescription
  datatype Volunteering = Volunteering(organization: string, role: string, duration: string, description: string)
  {
    function Get(f: VolunteeringField): string
    {
      match f
      case VolOrganization => organization
      case VolRole => role
      case VolDuration => duration
      case VolDescription => description
    }

    function With(f: VolunteeringField, v: string): (r: Volunteering)
      ensures r.Get(f) == v
      ensures forall g | g != f :: r.Get(g) == Get(g)
    {
      match f
      case VolOrganization => this.(organization := v)
      case VolRole => this.(role := v)
      case VolDuration => this.(duration := v)
      case VolDescription => this.(description := v)
    }
  }

  datatype AwardField = AwardName | AwardIssuer | AwardDate
  datatype Award = Award(name: string, issuer: string, date: string)
  {
    function Get(f: AwardField): string
    {
      match f
      case AwardName => name
      case AwardIssuer => issuer
      case AwardDate => date
    }

    function With(f: AwardField, v: string): (r: Award)
      ensures r.Get(f) == v
      ensures forall g | g != f :: r.Get(g) == Get(g)
    {
      match f
      case AwardName => this.(name := v)
      case AwardIssuer => this.(issuer := v)
      case AwardDate => this.(date := v)
    }
  }

  datatype PublicationField = PubTitle | PubJournal | PubDate | PubUrl
  datatype Publication = Publication(title: string, journal: string, date: string, url: string)
  {
    function Get(f: PublicationField): string
    {
      match f
      case PubTitle => title
      case PubJournal => journal
      case PubDate => date
      case PubUrl => url
    }

    function With(f: PublicationField, v: string): (r: Publication)
      ensures r.Get(f) == v
      ensures forall g | g != f :: r.Get(g) == Get(g)
    {
      match f
      case PubTitle => this.(title := v)
      case PubJournal => this.(journal := v)
      case PubDate => this.(date := v)
      case PubUrl => this.(url := v)
    }
  }

  datatype ResearchField = ResTitle | ResPublication | ResDate | ResUrl | ResDescription
  datatype ResearchEntry = ResearchEntry(title: string, publication: string, date: string, url: string, description: string)
  {
    function Get(f: ResearchField): string
    {
      match f
      case ResTitle => title
      case ResPublication => publication
      case ResDate => date
      case ResUrl => url
      case ResDescription => description
    }

    function With(f: ResearchField, v: string): (r: ResearchEntry)
      ensures r.Get(f) == v
      ensures forall g | g != f :: r.Get(g) == Get(g)
    {
      match f
      case ResTitle => this.(title := v)
      case ResPublication => this.(publication := v)
      case ResDate => this.(date := v)
      case ResUrl => this.(url := v)
      case ResDescription => this.(description := v)
    }
  }

  datatype TalkField = TalkTitle | TalkEvent | TalkDate | TalkUrl
  datatype Talk = Talk(title: string, event: string, date: string, url: string)
  {
    function Get(f: TalkField): string
    {
      match f
      case TalkTitle => title
      case TalkEvent => event
      case TalkDate => date
      case TalkUrl => url
    }

    function With(f: TalkField, v: string): (r: Talk)
      ensures r.Get(f) == v
      ensures forall g | g != f :: r.Get(g) == Get(g)
    {
      match f
      case TalkTitle => this.(title := v)
      case TalkEvent => this.(event := v)
      case TalkDate => this.(date := v)
      case TalkUrl => this.(url := v)
    }
  }

  datatype HackathonField = HackName | HackDescription | HackLink
  datatype Hackathon = Hackathon(name: string, description: string, link: string)
  {
    function Get(f: HackathonField): string
    {
      match f
      case HackName => name
      case HackDescription => description
      case HackLink => link
    }

    function With(f: HackathonField, v: string): (r: Hackathon)
      ensures r.Get(f) == v
      ensures forall g | g != f :: r.Get(g) == Get(g)
    {
      match f
      case HackName => this.(name := v)
      case HackDescription => this.(description := v)
      case HackLink => this.(link := v)
    }
  }

  datatype ProblemSolvingField = PsPlatform | PsUsername
  datatype ProblemSolvingProfile = ProblemSolvingProfile(platform: string, username: string)
  {
    function Get(f: ProblemSolvingField): string
    {
      match f
      case PsPlatform => platform
      case PsUsername => username
    }

    function With(f: ProblemSolvingField, v: string): (r: ProblemSolvingProfile)
      ensures r.Get(f) == v
      ensures forall g | g != f :: r.Get(g) == Get(g)
    {
      match f
      case PsPlatform => this.(platform := v)
      case PsUsername => this.(username := v)
    }
  }

  // ---------------------------------------------------------------------
  // Nested configurations
  // ---------------------------------------------------------------------

  datatype MainHeaderConfig = MainHeaderConfig(
    enabled: bool, title: string, subtitle: string, aiPrompt: string,
    aiStyle: string, aiEffect: string, aiColor: string, aiMotion: string,
    aiAspectRatio: AspectRatio, generatedImageUrl: string)

  datatype ProfileHeaderConfig = ProfileHeaderConfig(
    enabled: bool, title: string, subtitle: string, background: string)

  datatype SocialIconStyle = SocialIconStyle(
    size: int, backgroundColor: string, borderWidth: int, borderColor: string, borderRadius: int)

  datatype SectionStyleConfig = SectionStyleConfig(
    style: CardStyle, cardBackgroundColor: string, cardBorderColor: string, cardBorderRadius: int)

  datatype AdvancedMetrics = AdvancedMetrics(languages: bool, habits: bool, isocalendar: bool, skyline: bool)
  {
    function Get(m: Metric): bool
    {
      match m
      case MetricLanguages => languages
      case MetricHabits => habits
      case MetricIsocalendar => isocalendar
      case MetricSkyline => skyline
    }
  }

  /** One category of the selected tech stack. A `TechStack` (a JavaScript
      object keyed by category name) is a sequence of these in the object's
      key order. */
  datatype CategorySkills = CategorySkills(category: string, skills: seq<string>)
  type TechStack = seq<CategorySkills>

  // ---------------------------------------------------------------------
  // The form record
  // ---------------------------------------------------------------------

  /** The 57 keys of `FormData`. */
  datatype Key =
    | KMainHeader | KProfileHeader | KResumeText | KName | KGithubUser | KBio
    | KMyMission | KTechStack | KSkillStyle | KBadgeColor | KSocials
    | KSocialStyle | KSocialIconStyle | KWorkExperience | KProjects
    | KProjectStyle | KVolunteering | KEducation | KCertifications | KResearch
    | KAwards | KPublications | KTalks | KLanguages | KHobbies | KBuyMeACoffee
    | KKofi | KBlogUrl | KCustomHtml | KFooterText | KFooterStyle
    | KFooterCardWidth | KFooterCardBorderRadius | KFooterCardBorderColor
    | KHackathons | KProblemSolving | KShowVisitors | KShowStats
    | KShowTopLangs | KShowTrophies | KShowPinnedRepos | KShowProfileSummary
    | KShowProductiveTime | KGithubUtcOffset | KShowStreakStats
    | KShowActivityGraph | KShowWakatimeBadge | KShowWakatimeChart
    | KWakatimeUser | KStatsTheme | KShowBorder | KBorderRadius
    | KSectionOrder | KSectionStyleConfig | KStatsCardType | KBorderColor
    | KAdvancedMetrics

  /** The sixteen plain text keys. */
  datatype TextField =
    | FResumeText | FName | FGithubUser | FBio | FMyMission | FBadgeColor
    | FBuyMeACoffee | FKofi | FBlogUrl | FCustomHtml | FFooterText
    | FFooterCardBorderColor | FGithubUtcOffset | FWakatimeUser | FStatsTheme
    | FBorderColor
  {
    function Key(): Key
    {
      match this
      case FResumeText => KResumeText
      case FName => KName
      case FGithubUser => KGithubUser
      case FBio => KBio
      case FMyMission => KMyMission
      case FBadgeColor => KBadgeColor
      case FBuyMeACoffee => KBuyMeACoffee
      case FKofi => KKofi
      case FBlogUrl => KBlogUrl
      case FCustomHtml => KCustomHtml
      case FFooterText => KFooterText
      case FFooterCardBorderColor => KFooterCardBorderColor
      case FGithubUtcOffset => KGithubUtcOffset
      case FWakatimeUser => KWakatimeUser
      case FStatsTheme => KStatsTheme
      case FBorderColor => KBorderColor
    }
  }

  /** The twelve check-box keys. */
  datatype FlagField =
    | FShowVisitors | FShowStats | FShowTopLangs | FShowTrophies
    | FShowPinnedRepos | FShowProfileSummary | FShowProductiveTime
    | FShowStreakStats | FShowActivityGraph | FShowWakatimeBadge
    | FShowWakatimeChart | FShowBorder
  {
    function Key(): Key
    {
      match this
      case FShowVisitors => KShowVisitors
      case FShowStats => KShowStats
      case FShowTopLangs => KShowTopLangs
      case FShowTrophies => KShowTrophies
      case FShowPinnedRepos => KShowPinnedRepos
      case FShowProfileSummary => KShowProfileSummary
      case FShowProductiveTime => KShowProductiveTime
      case FShowStreakStats => KShowStreakStats
      case FShowActivityGraph => KShowActivityGraph
      case FShowWakatimeBadge => KShowWakatimeBadge
      case FShowWakatimeChart => KShowWakatimeChart
      case FShowBorder => KShowBorder
    }
  }

  /** The three numeric keys. */
  datatype NumberField = FFooterCardWidth | FFooterCardBorderRadius | FBorderRadius
  {
    function Key(): Key
    {
      match this
      case FFooterCardWidth => KFooterCardWidth
      case FFooterCardBorderRadius => KFooterCardBorderRadius
      case FBorderRadius => KBorderRadius
    }
  }

  /** The two tag lists. */
  datatype TagField = FLanguages | FHobbies
  {
    function Key(): Key
    {
      match this
      case FLanguages => KLanguages
      case FHobbies => KHobbies
    }
  }

  datatype FormData = FormData(
    mainHeader: MainHeaderConfig,
    profileHeader: ProfileHeaderConfig,
    resumeText: string,
    name: string,
    githubUser: string,
    bio: string,
    myMission: string,
    techStack: TechStack,
    skillStyle: SkillStyle,
    badgeColor: string,
    socials: seq<SocialLink>,
    socialStyle: SocialStyle,
    socialIconStyle: SocialIconStyle,
    workExperience: seq<WorkEntry>,
    projects: seq<Project>,
    projectStyle: ProjectStyle,
    volunteering: seq<Volunteering>,
    education: seq<EducationEntry>,
    certifications: seq<Certification>,
    research: seq<ResearchEntry>,
    awards: seq<Award>,
    publications: seq<Publication>,
    talks: seq<Talk>,
    languages: seq<string>,
    hobbies: seq<string>,
    buyMeACoffee: string,
    kofi: string,
    blogUrl: string,
    customHtml: string,
    footerText: string,
    footerStyle: FooterStyle,
    footerCardWidth: int,
    footerCardBorderRadius: int,
    footerCardBorderColor: string,
    hackathons: seq<Hackathon>,
    problemSolving: seq<ProblemSolvingProfile>,
    showVisitors: bool,
    showStats: bool,
    showTopLangs: bool,
    showTrophies: bool,
    showPinnedRepos: bool,
    showProfileSummary: bool,
    showProductiveTime: bool,
    githubUtcOffset: string,
    showStreakStats: bool,
    showActivityGraph: bool,
    showWakatimeBadge: bool,
    showWakatimeChart: bool,
    wakatimeUser: string,
    statsTheme: string,
    showBorder: bool,
    borderRadius: int,
    sectionOrder: seq<SectionKey>,
    sectionStyleConfig: SectionStyleConfig,
    statsCardType: StatsCardType,
    borderColor: string,
    advancedMetrics: AdvancedMetrics)
  {
    // One writer per key, each stating that it writes its key and no other.

    function WithMainHeader(v: MainHeaderConfig): (r: FormData)
      ensures SameExcept(this, r, KMainHeader) && r.mainHeader == v
    {
      this.(mainHeader := v)
    }

    function WithProfileHeader(v: ProfileHeaderConfig): (r: FormData)
      ensures SameExcept(this, r, KProfileHeader) && r.profileHeader == v
    {
      this.(profileHeader := v)
    }

    function WithResumeText(v: string): (r: FormData)
      ensures SameExcept(this, r, KResumeText) && r.resumeText == v
    {
      this.(resumeText := v)
    }

    function WithName(v: string): (r: FormData)
      ensures SameExcept(this, r, KName) && r.name == v
    {
      this.(name := v)
    }

    function WithGithubUser(v: string): (r: FormData)
      ensures SameExcept(this, r, KGithubUser) && r.githubUser == v
    {
      this.(githubUser := v)
    }

    function WithBio(v: string): (r: FormData)
      ensures SameExcept(this, r, KBio) && r.bio == v
    {
      this.(bio := v)
    }

    function WithMyMission(v: string): (r: FormData)
      ensures SameExcept(this, r, KMyMission) && r.myMission == v
    {
      this.(myMission := v)
    }

    function WithTechStack(v: TechStack): (r: FormData)
      ensures SameExcept(this, r, KTechStack) && r.techStack == v
    {
      this.(techStack := v)
    }

    function WithSkillStyle(v: SkillStyle): (r: FormData)
      ensures SameExcept(this, r, KSkillStyle) && r.skillStyle == v
    {
      this.(skillStyle := v)
    }

    function WithBadgeColor(v: string): (r: FormData)
      ensures SameExcept(this, r, KBadgeColor) && r.badgeColor == v
    {
      this.(badgeColor := v)
    }

    function WithSocials(v: seq<SocialLink>): (r: FormData)
      ensures SameExcept(this, r, KSocials) && r.socials == v
    {
      this.(socials := v)
    }

    function WithSocialStyle(v: SocialStyle): (r: FormData)
      ensures SameExcept(this, r, KSocialStyle) && r.socialStyle == v
    {
      this.(socialStyle := v)
    }

    function WithSocialIconStyle(v: SocialIconStyle): (r: FormData)
      ensures SameExcept(this, r, KSocialIconStyle) && r.socialIconStyle == v
    {
      this.(socialIconStyle := v)
    }

    function WithWorkExperience(v: seq<WorkEntry>): (r: FormData)
      ensures SameExcept(this, r, KWorkExperience) && r.workExperience == v
    {
      this.(workExperience := v)
    }

    function WithProjects(v: seq<Project>): (r: FormData)
      ensures SameExcept(this, r, KProjects) && r.projects == v
    {
      this.(projects := v)
    }

    function WithProjectStyle(v: ProjectStyle): (r: FormData)
      ensures SameExcept(this, r, KProjectStyle) && r.projectStyle == v
    {
      this.(projectStyle := v)
    }

    function WithVolunteering(v: seq<Volunteering>): (r: FormData)
      ensures SameExcept(this, r, KVolunteering) && r.volunteering == v
    {
      this.(volunteering := v)
    }

    function WithEducation(v: seq<EducationEntry>): (r: FormData)
      ensures SameExcept(this, r, KEducation) && r.education == v
    {
      this.(education := v)
    }

    function WithCertifications(v: seq<Certification>): (r: FormData)
      ensures SameExcept(this, r, KCertifications) && r.certifications == v
    {
      this.(certifications := v)
    }

    function WithResearch(v: seq<ResearchEntry>): (r: FormData)
      ensures SameExcept(this, r, KResearch) && r.research == v
    {
      this.(research := v)
    }

    function WithAwards(v: seq<Award>): (r: FormData)
      ensures SameExcept(this, r, KAwards) && r.awards == v
    {
      this.(awards := v)
    }

    function WithPublications(v: seq<Publication>): (r: FormData)
      ensures SameExcept(this, r, KPublications) && r.publications == v
    {
      this.(publications := v)
    }

    function WithTalks(v: seq<Talk>): (r: FormData)
      ensures SameExcept(this, r, KTalks) && r.talks == v
    {
      this.(talks := v)
    }

    function WithLanguages(v: seq<string>): (r: FormData)
      ensures SameExcept(this, r, KLanguages) && r.languages == v
    {
      this.(languages := v)
    }

    function WithHobbies(v: seq<string>): (r: FormData)
      ensures SameExcept(this, r, KHobbies) && r.hobbies == v
    {
      this.(hobbies := v)
    }

    function WithBuyMeACoffee(v: string): (r: FormData)
      ensures SameExcept(this, r, KBuyMeACoffee) && r.buyMeACoffee == v
    {
      this.(buyMeACoffee := v)
    }

    function WithKofi(v: string): (r: FormData)
      ensures SameExcept(this, r, KKofi) && r.kofi == v
    {
      this.(kofi := v)
    }

    function WithBlogUrl(v: string): (r: FormData)
      ensures SameExcept(this, r, KBlogUrl) && r.blogUrl == v
    {
      this.(blogUrl := v)
    }

    function WithCustomHtml(v: string): (r: FormData)
      ensures SameExcept(this, r, KCustomHtml) && r.customHtml == v
    {
      this.(customHtml := v)
    }

    function WithFooterText(v: string): (r: FormData)
      ensures SameExcept(this, r, KFooterText) && r.footerText == v
    {
      this.(footerText := v)
    }

    function WithFooterStyle(v: FooterStyle): (r: FormData)
      ensures SameExcept(this, r, KFooterStyle) && r.footerStyle == v
    {
      this.(footerStyle := v)
    }

    function WithFooterCardWidth(v: int): (r: FormData)
      ensures SameExcept(this, r, KFooterCardWidth) && r.footerCardWidth == v
    {
      this.(footerCardWidth := v)
    }

    function WithFooterCardBorderRadius(v: int): (r: FormData)
      ensures SameExcept(this, r, KFooterCardBorderRadius) && r.footerCardBorderRadius == v
    {
      this.(footerCardBorderRadius := v)
    }

    function WithFooterCardBorderColor(v: string): (r: FormData)
      ensures SameExcept(this, r, KFooterCardBorderColor) && r.footerCardBorderColor == v
    {
      this.(footerCardBorderColor := v)
    }

    function WithHackathons(v: seq<Hackathon>): (r: FormData)
      ensures SameExcept(this, r, KHackathons) && r.hackathons == v
    {
      this.(hackathons := v)
    }

    function WithProblemSolving(v: seq<ProblemSolvingProfile>): (r: FormData)
      ensures SameExcept(this, r, KProblemSolving) && r.problemSolving == v
    {
      this.(problemSolving := v)
    }

    function WithShowVisitors(v: bool): (r: FormData)
      ensures SameExcept(this, r, KShowVisitors) && r.showVisitors == v
    {
      this.(showVisitors := v)
    }

    function WithShowStats(v: bool): (r: FormData)
      ensures SameExcept(this, r, KShowStats) && r.showStats == v
    {
      this.(showStats := v)
    }

    function WithShowTopLangs(v: bool): (r: FormData)
      ensures SameExcept(this, r, KShowTopLangs) && r.showTopLangs == v
    {
      this.(showTopLangs := v)
    }

    function WithShowTrophies(v: bool): (r: FormData)
      ensures SameExcept(this, r, KShowTrophies) && r.showTrophies == v
    {
      this.(showTrophies := v)
    }

    function WithShowPinnedRepos(v: bool): (r: FormData)
      ensures SameExcept(this, r, KShowPinnedRepos) && r.showPinnedRepos == v
    {
      this.(showPinnedRepos := v)
    }

    function WithShowProfileSummary(v: bool): (r: FormData)
      ensures SameExcept(this, r, KShowProfileSummary) && r.showProfileSummary == v
    {
      this.(showProfileSummary := v)
    }

    function WithShowProductiveTime(v: bool): (r: FormData)
      ensures SameExcept(this, r, KShowProductiveTime) && r.showProductiveTime == v
    {
      this.(showProductiveTime := v)
    }

    function WithGithubUtcOffset(v: string): (r: FormData)
      ensures SameExcept(this, r, KGithubUtcOffset) && r.githubUtcOffset == v
    {
      this.(githubUtcOffset := v)
    }

    function WithShowStreakStats(v: bool): (r: FormData)
      ensures SameExcept(this, r, KShowStreakStats) && r.showStreakStats == v
    {
      this.(showStreakStats := v)
    }

    function WithShowActivityGraph(v: bool): (r: FormData)
      ensures SameExcept(this, r, KShowActivityGraph) && r.showActivityGraph == v
    {
      this.(showActivityGraph := v)
    }

    function WithShowWakatimeBadge(v: bool): (r: FormData)
      ensures SameExcept(this, r, KShowWakatimeBadge) && r.showWakatimeBadge == v
    {
      this.(showWakatimeBadge := v)
    }

    function WithShowWakatimeChart(v: bool): (r: FormData)
      ensures SameExcept(this, r, KShowWakatimeChart) && r.showWakatimeChart == v
    {
      this.(showWakatimeChart := v)
    }

    function WithWakatimeUser(v: string): (r: FormData)
      ensures SameExcept(this, r, KWakatimeUser) && r.wakatimeUser == v
    {
      this.(wakatimeUser := v)
    }

    function WithStatsTheme(v: string): (r: FormData)
      ensures SameExcept(this, r, KStatsTheme) && r.statsTheme == v
    {
      this.(statsTheme := v)
    }

    function WithShowBorder(v: bool): (r: FormData)
      ensures SameExcept(this, r, KShowBorder) && r.showBorder == v
    {
      this.(showBorder := v)
    }

    function WithBorderRadius(v: int): (r: FormData)
      ensures SameExcept(this, r, KBorderRadius) && r.borderRadius == v
    {
      this.(borderRadius := v)
    }

    function WithSectionOrder(v: seq<SectionKey>): (r: FormData)
      ensures SameExcept(this, r, KSectionOrder) && r.sectionOrder == v
    {
      this.(sectionOrder := v)
    }

    function WithSectionStyleConfig(v: SectionStyleConfig): (r: FormData)
      ensures SameExcept(this, r, KSectionStyleConfig) && r.sectionStyleConfig == v
    {
      this.(sectionStyleConfig := v)
    }

    function WithStatsCardType(v: StatsCardType): (r: FormData)
      ensures SameExcept(this, r, KStatsCardType) && r.statsCardType == v
    {
      this.(statsCardType := v)
    }

    function WithBorderColor(v: string): (r: FormData)
      ensures SameExcept(this, r, KBorderColor) && r.borderColor == v
    {
      this.(borderColor := v)
    }

    function WithAdvancedMetrics(v: AdvancedMetrics): (r: FormData)
      ensures SameExcept(this, r, KAdvancedMetrics) && r.advancedMetrics == v
    {
      this.(advancedMetrics := v)
    }

    function Text(f: TextField): string
    {
      match f
      case FResumeText => resumeText
      case FName => name
      case FGithubUser => githubUser
      case FBio => bio
      case FMyMission => myMission
      case FBadgeColor => badgeColor
      case FBuyMeACoffee => buyMeACoffee
      case FKofi => kofi
      case FBlogUrl => blogUrl
      case FCustomHtml => customHtml
      case FFooterText => footerText
      case FFooterCardBorderColor => footerCardBorderColor
      case FGithubUtcOffset => githubUtcOffset
      case FWakatimeUser => wakatimeUser
      case FStatsTheme => statsTheme
      case FBorderColor => borderColor
    }

    function Flag(f: FlagField): bool
    {
      match f
      case FShowVisitors => showVisitors
      case FShowStats => showStats
      case FShowTopLangs => showTopLangs
      case FShowTrophies => showTrophies
      case FShowPinnedRepos => showPinnedRepos
      case FShowProfileSummary => showProfileSummary
      case FShowProductiveTime => showProductiveTime
      case FShowStreakStats => showStreakStats
      case FShowActivityGraph => showActivityGraph
      case FShowWakatimeBadge => showWakatimeBadge
      case FShowWakatimeChart => showWakatimeChart
      case FShowBorder => showBorder
    }

    function Number(f: NumberField): int
    {
      match f
      case FFooterCardWidth => footerCardWidth
      case FFooterCardBorderRadius => footerCardBorderRadius
      case FBorderRadius => borderRadius
    }

    function Tags(f: TagField): seq<string>
    {
      match f
      case FLanguages => languages
      case FHobbies => hobbies
    }
  }

  /** `d` with the value under key `k` taken from `src`. */
  function Overlay(d: FormData, src: FormData, k: Key): FormData
  {
    match k
    case KMainHeader => d.(mainHeader := src.mainHeader)
    case KProfileHeader => d.(profileHeader := src.profileHeader)
    case KResumeText => d.(resumeText := src.resumeText)
    case KName => d.(name := src.name)
    case KGithubUser => d.(githubUser := src.githubUser)
    case KBio => d.(bio := src.bio)
    case KMyMission => d.(myMission := src.myMission)
    case KTechStack => d.(techStack := src.techStack)
    case KSkillStyle => d.(skillStyle := src.skillStyle)
    case KBadgeColor => d.(badgeColor := src.badgeColor)
    case KSocials => d.(socials := src.socials)
    case KSocialStyle => d.(socialStyle := src.socialStyle)
    case KSocialIconStyle => d.(socialIconStyle := src.socialIconStyle)
    case KWorkExperience => d.(workExperience := src.workExperience)
    case KProjects => d.(projects := src.projects)
    case KProjectStyle => d.(projectStyle := src.projectStyle)
    case KVolunteering => d.(volunteering := src.volunteering)
    case KEducation => d.(education := src.education)
    case KCertifications => d.(certifications := src.certifications)
    case KResearch => d.(research := src.research)
    case KAwards => d.(awards := src.awards)
    case KPublications => d.(publications := src.publications)
    case KTalks => d.(talks := src.talks)
    case KLanguages => d.(languages := src.languages)
    case KHobbies => d.(hobbies := src.hobbies)
    case KBuyMeACoffee => d.(buyMeACoffee := src.buyMeACoffee)
    case KKofi => d.(kofi := src.kofi)
    case KBlogUrl => d.(blogUrl := src.blogUrl)
    case KCustomHtml => d.(customHtml := src.customHtml)
    case KFooterText => d.(footerText := src.footerText)
    case KFooterStyle => d.(footerStyle := src.footerStyle)
    case KFooterCardWidth => d.(footerCardWidth := src.footerCardWidth)
    case KFooterCardBorderRadius => d.(footerCardBorderRadius := src.footerCardBorderRadius)
    case KFooterCardBorderColor => d.(footerCardBorderColor := src.footerCardBorderColor)
    case KHackathons => d.(hackathons := src.hackathons)
    case KProblemSolving => d.(problemSolving := src.problemSolving)
    case KShowVisitors => d.(showVisitors := src.showVisitors)
    case KShowStats => d.(showStats := src.showStats)
    case KShowTopLangs => d.(showTopLangs := src.showTopLangs)
    case KShowTrophies => d.(showTrophies := src.showTrophies)
    case KShowPinnedRepos => d.(showPinnedRepos := src.showPinnedRepos)
    case KShowProfileSummary => d.(showProfileSummary := src.showProfileSummary)
    case KShowProductiveTime => d.(showProductiveTime := src.showProductiveTime)
    case KGithubUtcOffset => d.(githubUtcOffset := src.githubUtcOffset)
    case KShowStreakStats => d.(showStreakStats := src.showStreakStats)
    case KShowActivityGraph => d.(showActivityGraph := src.showActivityGraph)
    case KShowWakatimeBadge => d.(showWakatimeBadge := src.showWakatimeBadge)
    case KShowWakatimeChart => d.(showWakatimeChart := src.showWakatimeChart)
    case KWakatimeUser => d.(wakatimeUser := src.wakatimeUser)
    case KStatsTheme => d.(statsTheme := src.statsTheme)
    case KShowBorder => d.(showBorder := src.showBorder)
    case KBorderRadius => d.(borderRadius := src.borderRadius)
    case KSectionOrder => d.(sectionOrder := src.sectionOrder)
    case KSectionStyleConfig => d.(sectionStyleConfig := src.sectionStyleConfig)
    case KStatsCardType => d.(statsCardType := src.statsCardType)
    case KBorderColor => d.(borderColor := src.borderColor)
    case KAdvancedMetrics => d.(advancedMetrics := src.advancedMetrics)
  }

  /** `r` agrees with `d` on every key except possibly `k`: the "nothing
      else changes" of an update that writes the single key `k`. */
  predicate SameExcept(d: FormData, r: FormData, k: Key)
  {
    r == Overlay(d, r, k)
  }
}
