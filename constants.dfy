/** The reference tables of constants.ts: the tech catalog, the platform
    catalogs, the project categories, the profile-header backgrounds, the
    default section order, the initial tech stack and the initial form
    record. String literals are copied character for character, including
    the mis-decoded emoji the file contains. */
module Constants {
  import opened Wrappers
  import opened Types
  import opened Lists
  import opened TechStacks

  datatype Skill = Skill(name: string, deviconName: string)
  datatype CatalogCategory = CatalogCategory(category: string, skills: seq<Skill>)
  datatype ProblemSolvingPlatformInfo = ProblemSolvingPlatformInfo(name: string, icon: string, url: string)
  datatype SocialPlatformInfo = SocialPlatformInfo(name: string, icon: string, color: string, baseUrl: string)
  datatype Background = Background(name: string, group: string, fill: string, bgColor: string)

  /** `TECH_STACK`, in the object's key order. */
  const TechCatalog: seq<CatalogCategory> := [
    CatalogCategory("Programming Languages", [
      Skill("JavaScript", "javascript-plain"),
      Skill("TypeScript", "typescript-plain"),
      Skill("Python", "python-plain"),
      Skill("Java", "java-plain"),
      Skill("Go", "go-original-wordmark"),
      Skill("Rust", "rust-plain"),
      Skill("C++", "cplusplus-plain"),
      Skill("C#", "csharp-plain"),
      Skill("PHP", "php-plain"),
      Skill("Ruby", "ruby-plain"),
      Skill("Swift", "swift-plain"),
      Skill("Kotlin", "kotlin-plain"),
      Skill("Dart", "dart-plain")
    ]),
    CatalogCategory("Frontend Development", [
      Skill("React", "react-original"),
      Skill("Next.js", "nextjs-original"),
      Skill("Vue.js", "vuejs-plain"),
      Skill("Angular", "angularjs-plain"),
      Skill("Svelte", "svelte-plain"),
      Skill("HTML5", "html5-plain"),
      Skill("CSS3", "css3-plain"),
      Skill("Sass", "sass-original"),
      Skill("Tailwind CSS", "tailwindcss-plain"),
      Skill("Bootstrap", "bootstrap-plain"),
      Skill("Redux", "redux-original")
    ]),
    CatalogCategory("Backend Development", [
      Skill("Node.js", "nodejs-plain"),
      Skill("Express", "express-original"),
      Skill("Django", "django-plain"),
      Skill("Flask", "flask-original"),
      Skill("Ruby on Rails", "rails-plain"),
      Skill("Spring", "spring-plain")
    ]),
    CatalogCategory("Mobile App Development", [
      Skill("React Native", "react-original"),
      Skill("Flutter", "flutter-plain"),
      Skill("Swift", "swift-plain"),
      Skill("Kotlin", "kotlin-plain"),
      Skill("Android", "android-plain"),
      Skill("iOS", "apple-original")
    ]),
    CatalogCategory("AI/ML", [
      Skill("TensorFlow", "tensorflow-original"),
      Skill("PyTorch", "pytorch-plain"),
      Skill("Scikit-learn", "scikitlearn-plain")
    ]),
    CatalogCategory("Database", [
      Skill("MongoDB", "mongodb-plain"),
      Skill("PostgreSQL", "postgresql-plain"),
      Skill("MySQL", "mysql-plain"),
      Skill("SQLite", "sqlite-plain"),
      Skill("Redis", "redis-plain")
    ]),
    CatalogCategory("Data Visualization", [
      Skill("D3.js", "d3js-plain"),
      Skill("Chart.js", "chartjs-plain")
    ]),
    CatalogCategory("DevOps", [
      Skill("Docker", "docker-plain"),
      Skill("Kubernetes", "kubernetes-plain"),
      Skill("AWS", "amazonwebservices-original"),
      Skill("Google Cloud", "googlecloud-plain"),
      Skill("Azure", "azure-plain"),
      Skill("Git", "git-plain"),
      Skill("Jenkins", "jenkins-line"),
      Skill("Terraform", "terraform-plain")
    ]),
    CatalogCategory("Backend as a Service (BaaS)", [
      Skill("Firebase", "firebase-plain"),
      Skill("Supabase", "supabase-plain"),
      Skill("Heroku", "heroku-plain")
    ]),
    CatalogCategory("Testing", [
      Skill("Jest", "jest-plain"),
      Skill("Mocha", "mocha-plain"),
      Skill("Cypress", "cypressio-plain"),
      Skill("Selenium", "selenium-original")
    ]),
    CatalogCategory("Software", [
      Skill("Figma", "figma-plain"),
      Skill("Postman", "postman-plain"),
      Skill("VS Code", "vscode-plain")
    ]),
    CatalogCategory("Static Site Generators", [
      Skill("Gatsby", "gatsby-plain"),
      Skill("Jekyll", "jekyll-plain"),
      Skill("Hugo", "hugo-plain")
    ]),
    CatalogCategory("Game Engines", [
      Skill("Unity", "unity-original"),
      Skill("Unreal Engine", "unrealengine-original")
    ]),
    CatalogCategory("Automation", [
      Skill("GitHub Actions", "githubactions-plain")
    ]),
    CatalogCategory("Other", [
      Skill("Linux", "linux-plain"),
      Skill("Webpack", "webpack-plain"),
      Skill("GraphQL", "graphql-plain")
    ])
  ]

  const ProblemSolvingPlatforms: seq<ProblemSolvingPlatformInfo> := [
    ProblemSolvingPlatformInfo("HackerRank", "hackerrank", "https://www.hackerrank.com/"),
    ProblemSolvingPlatformInfo("LeetCode", "leetcode", "https://leetcode.com/u/"),
    ProblemSolvingPlatformInfo("CodeChef", "codechef", "https://www.codechef.com/users/"),
    ProblemSolvingPlatformInfo("CodeSignal", "codesignal", "https://app.codesignal.com/profile/")
  ]

  const SocialPlatforms: seq<SocialPlatformInfo> := [
    SocialPlatformInfo("GitHub", "github", "181717", "https://github.com/"),
    SocialPlatformInfo("LinkedIn", "linkedin", "0A66C2", "https://linkedin.com/in/"),
    SocialPlatformInfo("Twitter", "x", "000000", "https://twitter.com/"),
    SocialPlatformInfo("Medium", "medium", "12100E", "https://medium.com/@"),
    SocialPlatformInfo("DEV.to", "devdotto", "0A0A0A", "https://dev.to/"),
    SocialPlatformInfo("Stack Overflow", "stackoverflow", "F58025", "https://stackoverflow.com/users/"),
    SocialPlatformInfo("YouTube", "youtube", "FF0000", "https://youtube.com/c/"),
    SocialPlatformInfo("Instagram", "instagram", "E4405F", "https://instagram.com/"),
    SocialPlatformInfo("Facebook", "facebook", "1877F2", "https://www.facebook.com/"),
    SocialPlatformInfo("Dribbble", "dribbble", "EA4C89", "https://dribbble.com/"),
    SocialPlatformInfo("Behance", "behance", "1769FF", "https://www.behance.net/"),
    SocialPlatformInfo("Website", "apollographql", "311C87", "")
  ]

  /** `ProjectCategory` (types.ts:16) as an enumeration. */
  datatype ProjectCategoryName =
    | StaticWebsite | WebApplication | ConsoleApplication | GuiApplication
    | Game | Script | ResearchCategory | LiveService | OtherCategory
  {
    function Name(): string
    {
      match this
      case StaticWebsite => "Static Website"
      case WebApplication => "Web Application"
      case ConsoleApplication => "Console Application"
      case GuiApplication => "GUI Application"
      case Game => "Game"
      case Script => "Script"
      case ResearchCategory => "Research"
      case LiveService => "Live Service / API"
      case OtherCategory => "Other"
    }
  }

  const ProjectCategories: seq<string> := [
    "Static Website", "Web Application", "Console Application", "GUI Application",
    "Game", "Script", "Research", "Live Service / API", "Other"
  ]

  /** `HEADER_BACKGROUNDS`, in the object's key order. The `svgDefs` markup of
      each entry is kept apart, in `BackgroundSvgDefs`, keyed the same way. */
  const HeaderBackgrounds: seq<(string, Background)> := [
    ("gradient-1", Background("Purple Reign", "Gradients", "url(#g)", "#0d1117")),
    ("gradient-2", Background("Sunset", "Gradients", "url(#g)", "#0d1117")),
    ("gradient-3", Background("Ocean", "Gradients", "url(#g)", "#0d1117")),
    ("gradient-4", Background("Cosmic Fusion", "Gradients", "url(#g)", "#0d1117")),
    ("gradient-5", Background("Aurora Borealis", "Gradients", "url(#g)", "#0d1117")),
    ("gradient-6", Background("Neon Pulse", "Gradients", "url(#g)", "#0d1117")),
    ("pattern-1", Background("Matrix", "Patterns", "url(#p)", "#0d1117")),
    ("pattern-2", Background("Grid", "Patterns", "url(#p)", "#0d1117")),
    ("pattern-3", Background("Circuit Board", "Patterns", "url(#p)", "#0d1117")),
    ("pattern-4", Background("Polka Dots", "Patterns", "url(#p)", "#0d1117")),
    ("pattern-5", Background("Hexagons", "Patterns", "url(#p)", "#0d1117")),
    ("pattern-6", Background("Wavy", "Animated", "url(#p)", "#0d1117")),
    ("pattern-7", Background("Nebula", "Animated", "url(#p)", "#0d1117"))
  ]

  /** The `svgDefs` of the `HEADER_BACKGROUNDS` entry under `key` ("" for a
      key that is not in the catalog). */
  function BackgroundSvgDefs(key: string): string
  {
    match key
    case "gradient-1" =>
      "<linearGradient id=\"g\" x1=\"0%\" y1=\"0%\" x2=\"100%\" y2=\"100%\"><stop offset=\"0%\" stop-color=\"#4c1d95\" /><stop offset=\"100%\" stop-color=\"#1e1b4b\" /></linearGradient>"
    case "gradient-2" =>
      "<linearGradient id=\"g\" x1=\"0%\" y1=\"0%\" x2=\"100%\" y2=\"100%\"><stop offset=\"0%\" stop-color=\"#be185d\" /><stop offset=\"100%\" stop-color=\"#5b21b6\" /></linearGradient>"
    case "gradient-3" =>
      "<linearGradient id=\"g\" x1=\"0%\" y1=\"0%\" x2=\"100%\" y2=\"100%\"><stop offset=\"0%\" stop-color=\"#047857\" /><stop offset=\"100%\" stop-color=\"#1d4ed8\" /></linearGradient>"
    case "gradient-4" =>
      "<radialGradient id=\"g\"><stop offset=\"0%\" stop-color=\"#3b0764\" /><stop offset=\"100%\" stop-color=\"#0d1117\" /></radialGradient>"
    case "gradient-5" =>
      "<linearGradient id=\"g\" x1=\"0%\" y1=\"0%\" x2=\"100%\" y2=\"0%\"><stop stop-color=\"#0369a1\" offset=\"0%\"/><stop stop-color=\"#10b981\" offset=\"50%\"/><stop stop-color=\"#8b5cf6\" offset=\"100%\"/></linearGradient>"
    case "gradient-6" =>
      "<linearGradient id=\"g\" gradientTransform=\"rotate(45)\"><stop offset=\"0%\" stop-color=\"#db2777\" /><stop offset=\"50%\" stop-color=\"#1d4ed8\" /><stop offset=\"100%\" stop-color=\"#db2777\" /></linearGradient>"
    case "pattern-1" =>
      "<pattern id=\"p\" width=\"20\" height=\"20\" patternUnits=\"userSpaceOnUse\"><path d=\"M0 0h20v20H0z\" fill=\"none\"/><path d=\"M20 20H0V0h20v20zM18 2H2v16h16V2zM6 6h2v2H6V6zm4 0h2v2h-2V6zm4 0h2v2h-2V6zM6 10h2v2H6v-2zm4 0h2v2h-2v-2zm4 0h2v2h-2v-2zm-8 4h2v2H6v-2zm4 0h2v2h-2v-2z\" fill=\"rgba(168, 85, 247, 0.1)\"/></pattern>"
    case "pattern-2" =>
      "<pattern id=\"p\" width=\"20\" height=\"20\" patternUnits=\"userSpaceOnUse\"><path d=\"M 0 0 H 10 V 10 H 0 Z\" fill=\"none\" stroke=\"rgba(168, 85, 247, 0.2)\" stroke-width=\"1\"/></pattern>"
    case "pattern-3" =>
      "<pattern id=\"p\" width=\"100\" height=\"100\" patternUnits=\"userSpaceOnUse\"><path d=\"M0 25h100M25 0v100M0 75h100M75 0v100M25 25h50v50h-50z\" fill=\"none\" stroke=\"rgba(168, 85, 247, 0.1)\" stroke-width=\"2\"/></pattern>"
    case "pattern-4" =>
      "<pattern id=\"p\" width=\"20\" height=\"20\" patternUnits=\"userSpaceOnUse\"><circle cx=\"10\" cy=\"10\" r=\"2\" fill=\"rgba(168, 85, 247, 0.2)\"/></pattern>"
    case "pattern-5" =>
      "<pattern id=\"p\" width=\"30\" height=\"26\" patternUnits=\"userSpaceOnUse\"><path d=\"M15 0l15 8.66v17.32l-15 8.66-15-8.66v-17.32z\" fill=\"none\" stroke=\"rgba(168, 85, 247, 0.15)\" stroke-width=\"1\"/></pattern>"
    case "pattern-6" =>
      "<filter id=\"f\"><feTurbulence type=\"fractalNoise\" baseFrequency=\"0.01 0.04\" numOctaves=\"3\" seed=\"2\" /></filter><pattern id=\"p\" width=\"800\" height=\"200\" patternUnits=\"userSpaceOnUse\"><rect width=\"800\" height=\"200\" fill=\"#a855f7\" filter=\"url(#f)\" opacity=\"0.1\"/></pattern>"
    case "pattern-7" =>
      "<filter id=\"f\"><feTurbulence type=\"fractalNoise\" baseFrequency=\"0.02\" numOctaves=\"5\" seed=\"10\" stitchTiles=\"stitch\"/></filter><pattern id=\"p\" width=\"800\" height=\"200\" patternUnits=\"userSpaceOnUse\"><rect width=\"800\" height=\"200\" fill=\"#5b21b6\" filter=\"url(#f)\" opacity=\"0.2\"/></pattern>"
    case _ => ""
  }

  const DefaultSectionOrder: seq<SectionKey> := [
    MainHeaderBanner, ProfileHeaderBanner, BasicInfo, MyMission, Socials,
    TechStack, GithubStats, GithubAnalytics, WorkExperience, FeaturedProjects,
    Projects, SectionKey.Volunteering, Education, Certifications, Research, Awards,
    Publications, Talks, Languages, Hobbies, Hackathons, ProblemSolving,
    SupportMe, BlogPosts, CustomHtml, Footer
  ]

  const InitialSectionOrder: seq<SectionKey> := [
    MainHeaderBanner, ProfileHeaderBanner, Appearance, BasicInfo, MyMission,
    GithubStats, GithubAnalytics, Socials, TechStack, WorkExperience,
    FeaturedProjects, Projects, SectionKey.Volunteering, Education, Certifications,
    Research, Awards, Publications, Talks, Languages, Hobbies, Hackathons,
    ProblemSolving, SupportMe, BlogPosts, CustomHtml, Footer
  ]

  // ---------------------------------------------------------------------
  // Views of the catalogs
  // ---------------------------------------------------------------------

  function CategoryNames(cats: seq<CatalogCategory>): (r: seq<string>)
    ensures |r| == |cats| && forall i | 0 <= i < |cats| :: r[i] == cats[i].category
  {
    seq(|cats|, i requires 0 <= i < |cats| => cats[i].category)
  }

  function SkillNames(skills: seq<Skill>): (r: seq<string>)
    ensures |r| == |skills| && forall i | 0 <= i < |skills| :: r[i] == skills[i].name
  {
    seq(|skills|, i requires 0 <= i < |skills| => skills[i].name)
  }

  /** `Object.values(TECH_STACK).flat().map(s => s.name)` */
  function AllSkillNames(cats: seq<CatalogCategory>): (r: seq<string>)
    ensures forall i, j | 0 <= i < |cats| && 0 <= j < |cats[i].skills| :: cats[i].skills[j].name in r
    ensures forall n | n in r :: exists i, j | 0 <= i < |cats| && 0 <= j < |cats[i].skills| :: cats[i].skills[j].name == n
  {
    if |cats| == 0 then []
    else
      var rest := AllSkillNames(cats[1..]);
      assert forall i | 1 <= i < |cats| :: cats[1..][i - 1] == cats[i];
      SkillNames(cats[0].skills) + rest
  }

  /** The index of the first catalog category named `c`. */
  function CategoryIndex(cats: seq<CatalogCategory>, c: string): (r: Option<nat>)
    ensures r.None? <==> c !in CategoryNames(cats)
    ensures r.Some? ==> r.value < |cats| && cats[r.value].category == c
    ensures r.Some? ==> forall j | 0 <= j < r.value :: cats[j].category != c
  {
    if |cats| == 0 then None
    else if cats[0].category == c then Some(0)
    else
      match CategoryIndex(cats[1..], c)
      case None =>
        assert forall i | 1 <= i < |cats| :: cats[1..][i - 1] == cats[i];
        None
      case Some(i) => Some(i + 1)
  }

  /** `TECH_STACK[category] || []` */
  function CatalogSkills(cats: seq<CatalogCategory>, c: string): (r: seq<Skill>)
    ensures c !in CategoryNames(cats) ==> r == []
    ensures forall i | 0 <= i < |cats| && cats[i].category == c && (forall j | 0 <= j < i :: cats[j].category != c) ::
      r == cats[i].skills
  {
    match CategoryIndex(cats, c)
    case None => []
    case Some(i) => cats[i].skills
  }

  /** `list.find(p => key(p) === name)`: the first entry whose key is `name`. */
  function FindBy<T>(ps: seq<T>, key: T -> string, name: string): (r: Option<T>)
    ensures r.Some? <==> exists i | 0 <= i < |ps| :: key(ps[i]) == name
    ensures r.Some? ==> r.value in ps && key(r.value) == name
  {
    if |ps| == 0 then None
    else if key(ps[0]) == name then Some(ps[0])
    else
      assert forall i | 1 <= i < |ps| :: ps[1..][i - 1] == ps[i];
      FindBy(ps[1..], key, name)
  }

  function SocialName(p: SocialPlatformInfo): string
  {
    p.name
  }

  function ProblemSolvingName(p: ProblemSolvingPlatformInfo): string
  {
    p.name
  }

  /** `SOCIAL_PLATFORMS.find(p => p.name === name)` */
  function FindSocialPlatform(name: string): (r: Option<SocialPlatformInfo>)
    ensures r.Some? <==> exists i | 0 <= i < |SocialPlatforms| :: SocialPlatforms[i].name == name
    ensures r.Some? ==> r.value in SocialPlatforms && r.value.name == name
  {
    FindBy(SocialPlatforms, SocialName, name)
  }

  /** `PROBLEM_SOLVING_PLATFORMS.find(pl => pl.name === name)` */
  function FindProblemSolvingPlatform(name: string): (r: Option<ProblemSolvingPlatformInfo>)
    ensures r.Some? <==> exists i | 0 <= i < |ProblemSolvingPlatforms| :: ProblemSolvingPlatforms[i].name == name
    ensures r.Some? ==> r.value in ProblemSolvingPlatforms && r.value.name == name
  {
    FindBy(ProblemSolvingPlatforms, ProblemSolvingName, name)
  }

  /** `HEADER_BACKGROUNDS[key]` */
  function FindBackground(bgs: seq<(string, Background)>, key: string): (r: Option<Background>)
    ensures r.Some? <==> exists i | 0 <= i < |bgs| :: bgs[i].0 == key
    ensures forall i | 0 <= i < |bgs| && bgs[i].0 == key && (forall j | 0 <= j < i :: bgs[j].0 != key) ::
      r == Some(bgs[i].1)
  {
    if |bgs| == 0 then None
    else if bgs[0].0 == key then Some(bgs[0].1)
    else
      assert forall i | 1 <= i < |bgs| :: bgs[1..][i - 1] == bgs[i];
      FindBackground(bgs[1..], key)
  }

  // ---------------------------------------------------------------------
  // The initial state
  // ---------------------------------------------------------------------

  /** The object `initialTechStack` ends up as: one key per catalog
      category in catalog order, four of them with default selections. */
  function InitialTechStack(): TechStack
  {
    [ CategorySkills("Programming Languages", ["JavaScript", "Python"]),
      CategorySkills("Frontend Development", ["React", "HTML5", "CSS3"]),
      CategorySkills("Backend Development", ["Node.js"]),
      CategorySkills("Mobile App Development", []),
      CategorySkills("AI/ML", []),
      CategorySkills("Database", []),
      CategorySkills("Data Visualization", []),
      CategorySkills("DevOps", ["Git"]),
      CategorySkills("Backend as a Service (BaaS)", []),
      CategorySkills("Testing", []),
      CategorySkills("Software", []),
      CategorySkills("Static Site Generators", []),
      CategorySkills("Game Engines", []),
      CategorySkills("Automation", []),
      CategorySkills("Other", []) ]
  }

  /** `Object.keys(TECH_STACK).reduce((acc, c) => { acc[c] = []; ... }, {})`
      followed by the four assignments of default selections. */
  method BuildInitialTechStack() returns (acc: TechStack)
    ensures acc == InitialTechStack()
  {
    CatalogCategoriesDistinct();
    acc := [];
    for i := 0 to |TechCatalog|
      invariant |acc| == i
      invariant forall j | 0 <= j < i :: acc[j] == CategorySkills(TechCatalog[j].category, [])
    {
      assert TechCatalog[i].category !in Keys(acc) by {
        forall j | 0 <= j < i ensures Keys(acc)[j] != TechCatalog[i].category {
          assert CategoryNames(TechCatalog)[j] == TechCatalog[j].category;
          assert CategoryNames(TechCatalog)[i] == TechCatalog[i].category;
        }
      }
      acc := Put(acc, TechCatalog[i].category, []);
    }
    assert acc == EmptyTechStack() by {
      forall j | 0 <= j < |TechCatalog| ensures acc[j] == EmptyTechStack()[j] {
        CatalogCategoryAt(j);
      }
    }
    SelectProgramming(acc);
    acc := Put(acc, "Programming Languages", ["JavaScript", "Python"]);
    SelectFrontend(acc);
    acc := Put(acc, "Frontend Development", ["React", "HTML5", "CSS3"]);
    SelectBackend(acc);
    acc := Put(acc, "Backend Development", ["Node.js"]);
    SelectDevOps(acc);
    DefaultsSelected(acc);
    acc := Put(acc, "DevOps", ["Git"]);
  }

  /** The object the `reduce` builds: every category with no selection. */
  function EmptyTechStack(): TechStack
  {
    [ CategorySkills("Programming Languages", []),
      CategorySkills("Frontend Development", []),
      CategorySkills("Backend Development", []),
      CategorySkills("Mobile App Development", []),
      CategorySkills("AI/ML", []),
      CategorySkills("Database", []),
      CategorySkills("Data Visualization", []),
      CategorySkills("DevOps", []),
      CategorySkills("Backend as a Service (BaaS)", []),
      CategorySkills("Testing", []),
      CategorySkills("Software", []),
      CategorySkills("Static Site Generators", []),
      CategorySkills("Game Engines", []),
      CategorySkills("Automation", []),
      CategorySkills("Other", []) ]
  }

  lemma CatalogCategoryAt(j: nat)
    requires j < |TechCatalog|
    ensures |EmptyTechStack()| == |TechCatalog|
    ensures EmptyTechStack()[j] == CategorySkills(TechCatalog[j].category, [])
  {
  }

  const ProgrammingDefaults := CategorySkills("Programming Languages", ["JavaScript", "Python"])
  const FrontendDefaults := CategorySkills("Frontend Development", ["React", "HTML5", "CSS3"])
  const BackendDefaults := CategorySkills("Backend Development", ["Node.js"])
  const DevOpsDefaults := CategorySkills("DevOps", ["Git"])

  /** Each of the four top-level assignments overwrites its key in place. */
  lemma SelectProgramming(e: TechStack)
    requires e == EmptyTechStack()
    ensures Put(e, "Programming Languages", ProgrammingDefaults.skills) == e[0 := ProgrammingDefaults]
  {
    PutFirst(e, 0, "Programming Languages", ProgrammingDefaults.skills);
  }

  lemma SelectFrontend(a: TechStack)
    requires a == EmptyTechStack()[0 := ProgrammingDefaults]
    ensures Put(a, "Frontend Development", FrontendDefaults.skills) == a[1 := FrontendDefaults]
  {
    PutFirst(a, 1, "Frontend Development", FrontendDefaults.skills);
  }

  lemma SelectBackend(b: TechStack)
    requires b == EmptyTechStack()[0 := ProgrammingDefaults][1 := FrontendDefaults]
    ensures Put(b, "Backend Development", BackendDefaults.skills) == b[2 := BackendDefaults]
  {
    PutFirst(b, 2, "Backend Development", BackendDefaults.skills);
  }

  lemma SelectDevOps(c: TechStack)
    requires c == EmptyTechStack()[0 := ProgrammingDefaults][1 := FrontendDefaults][2 := BackendDefaults]
    ensures Put(c, "DevOps", DevOpsDefaults.skills) == c[7 := DevOpsDefaults]
  {
    assert forall j | 0 <= j < 7 :: c[j].category != "DevOps";
    PutFirst(c, 7, "DevOps", DevOpsDefaults.skills);
  }

  lemma DefaultsSelected(c: TechStack)
    requires c == EmptyTechStack()[0 := ProgrammingDefaults][1 := FrontendDefaults][2 := BackendDefaults]
    ensures c[7 := DevOpsDefaults] == InitialTechStack()
  {
  }

  lemma PutFirst(ts: TechStack, i: nat, c: string, v: seq<string>)
    requires i < |ts| && ts[i].category == c
    requires forall j | 0 <= j < i :: ts[j].category != c
    ensures Put(ts, c, v) == ts[i := CategorySkills(c, v)]
  {
  }

  /** `INITIAL_FORM_DATA` */
  function InitialFormData(): FormData
  {
    FormData(
      mainHeader := MainHeaderConfig(
        enabled := true,
        title := "Welcome to my Profile!",
        subtitle := "Showcasing my journey in code",
        aiPrompt := "A majestic cat astronaut floating in a galaxy of code, digital art",
        aiStyle := "Digital Art",
        aiEffect := "Cinematic",
        aiColor := "Vibrant",
        aiMotion := "Serene",
        aiAspectRatio := R16x9,
        generatedImageUrl := ""),
      profileHeader := ProfileHeaderConfig(
        enabled := true,
        title := "Hi \U{F8FF}\U{00FC}\U{00EB}\U{00E3}, I'm",
        subtitle := "A Passionate Developer",
        background := "gradient-1"),
      resumeText := "",
      name := "Your Name",
      githubUser := "your-github-username",
      bio := "\U{F8FF}\U{00FC}\U{00F6}\U{00C4} A passionate developer exploring the universe of code.",
      myMission := "To leverage technology to build innovative solutions that solve real-world problems and drive positive change.",
      techStack := InitialTechStack(),
      skillStyle := Badge,
      badgeColor := "a855f7",
      socials := [
        SocialLink("LinkedIn", "https://linkedin.com/in/your-profile", "linkedin"),
        SocialLink("Twitter", "https://twitter.com/your-handle", "x")],
      socialStyle := SocialBadge,
      socialIconStyle := SocialIconStyle(
        size := 32, backgroundColor := "161b22", borderWidth := 1,
        borderColor := "30363d", borderRadius := 50),
      workExperience := [],
      projects := [],
      projectStyle := ProjectList,
      volunteering := [],
      education := [],
      certifications := [],
      research := [],
      awards := [],
      publications := [],
      talks := [],
      languages := ["English (Fluent)", "Spanish (Conversational)"],
      hobbies := ["Coding", "Reading", "Hiking"],
      buyMeACoffee := "",
      kofi := "",
      blogUrl := "",
      customHtml := "",
      footerText := "This README was generated with \U{201A}\U{00F9}\U{00A7}\U{00D4}\U{220F}\U{00E8} by [Ultimate GitHub README Generator](https://github.com/)",
      footerStyle := Card,
      footerCardWidth := 80,
      footerCardBorderRadius := 6,
      footerCardBorderColor := "a855f7",
      hackathons := [],
      problemSolving := [],
      showVisitors := true,
      showStats := true,
      showTopLangs := true,
      showTrophies := true,
      showPinnedRepos := true,
      showProfileSummary := true,
      showProductiveTime := true,
      githubUtcOffset := "0",
      showStreakStats := true,
      showActivityGraph := true,
      showWakatimeBadge := false,
      showWakatimeChart := false,
      wakatimeUser := "",
      statsTheme := "tokyonight",
      showBorder := false,
      borderRadius := 10,
      sectionOrder := InitialSectionOrder,
      sectionStyleConfig := SectionStyleConfig(
        style := DefaultStyle, cardBackgroundColor := "161b22",
        cardBorderColor := "30363d", cardBorderRadius := 6),
      statsCardType := Standard,
      borderColor := "a855f7",
      advancedMetrics := AdvancedMetrics(
        languages := true, habits := true, isocalendar := false, skyline := false))
  }

  // ---------------------------------------------------------------------
  // Shape facts
  // ---------------------------------------------------------------------

  /** The catalog's category names, in catalog order. */
  const CatalogCategoryNames: seq<string> := ["Programming Languages", "Frontend Development",
    "Backend Development", "Mobile App Development", "AI/ML", "Database", "Data Visualization",
    "DevOps", "Backend as a Service (BaaS)", "Testing", "Software", "Static Site Generators",
    "Game Engines", "Automation", "Other"]

  /** The fifteen catalog categories are distinct, as the keys of an
      object literal are. */
  lemma CatalogCategoriesDistinct()
    ensures |TechCatalog| == 15
    ensures NoDups(CategoryNames(TechCatalog))
  {
    forall j | 0 <= j < |TechCatalog| ensures CategoryNames(TechCatalog)[j] == CatalogCategoryNames[j] {
      CategoryNameAt(j);
    }
    assert CategoryNames(TechCatalog) == CatalogCategoryNames;
    CategoryNamesDistinct();
  }

  lemma CategoryNameAt(j: nat)
    requires j < |TechCatalog|
    ensures |TechCatalog| == |CatalogCategoryNames|
    ensures TechCatalog[j].category == CatalogCategoryNames[j]
  {
  }

  lemma CategoryNamesDistinct()
    ensures NoDups(CatalogCategoryNames)
  {
    var names := CatalogCategoryNames;
    assert names[..8] == ["Programming Languages", "Frontend Development", "Backend Development",
      "Mobile App Development", "AI/ML", "Database", "Data Visualization", "DevOps"];
    assert names[8..] == ["Backend as a Service (BaaS)", "Testing", "Software",
      "Static Site Generators", "Game Engines", "Automation", "Other"];
    NoDupsConcat(names[..8], names[8..]);
    assert names[..8] + names[8..] == names;
  }

  /** `initialTechStack` has one key per catalog category, in catalog
      order; the four categories assigned after the `reduce` hold their
      default selections and every other category is empty. */
  lemma InitialTechStackShape()
    ensures Keys(InitialTechStack()) == CategoryNames(TechCatalog)
    ensures UniqueKeys(InitialTechStack())
    ensures forall i | 0 <= i < |InitialTechStack()| ::
      (InitialTechStack()[i].skills != [] <==>
       InitialTechStack()[i].category in ["Programming Languages", "Frontend Development", "Backend Development", "DevOps"])
    ensures Lookup(InitialTechStack(), "Programming Languages") == ["JavaScript", "Python"]
    ensures Lookup(InitialTechStack(), "Frontend Development") == ["React", "HTML5", "CSS3"]
    ensures Lookup(InitialTechStack(), "Backend Development") == ["Node.js"]
    ensures Lookup(InitialTechStack(), "DevOps") == ["Git"]
  {
    InitialKeys();
    CatalogCategoriesDistinct();
    InitialSelections(InitialTechStack());
    LookupUnique(InitialTechStack(), 0);
    LookupUnique(InitialTechStack(), 1);
    LookupUnique(InitialTechStack(), 2);
    LookupUnique(InitialTechStack(), 7);
  }

  lemma InitialKeys()
    ensures Keys(InitialTechStack()) == CategoryNames(TechCatalog)
  {
    forall i | 0 <= i < |TechCatalog| ensures Keys(InitialTechStack())[i] == CategoryNames(TechCatalog)[i] {
      CatalogCategoryAt(i);
    }
  }

  lemma InitialSelections(ts: TechStack)
    requires ts == InitialTechStack()
    ensures forall i | 0 <= i < |ts| ::
      (ts[i].skills != [] <==>
       ts[i].category in ["Programming Languages", "Frontend Development", "Backend Development", "DevOps"])
  {
  }

  /** Every default selection is a skill of its own category in the
      catalog, and no category selects a skill twice. */
  lemma DefaultSelectionsInCatalog()
    ensures forall i, s | 0 <= i < |InitialTechStack()| && s in InitialTechStack()[i].skills ::
      s in SkillNames(CatalogSkills(TechCatalog, InitialTechStack()[i].category))
    ensures forall i | 0 <= i < |InitialTechStack()| :: NoDups(InitialTechStack()[i].skills)
  {
    InitialKeys();
    CatalogCategoriesDistinct();
    forall i | 0 <= i < |TechCatalog|
      ensures CatalogSkills(TechCatalog, InitialTechStack()[i].category) == TechCatalog[i].skills
    {
      assert Keys(InitialTechStack())[i] == InitialTechStack()[i].category;
      CatalogSkillsUnique(TechCatalog, i);
    }
    SelectionsInCatalog(InitialTechStack(), TechCatalog);
  }

  lemma SelectionsInCatalog(ts: TechStack, cats: seq<CatalogCategory>)
    requires ts == InitialTechStack() && cats == TechCatalog
    ensures forall i, s | 0 <= i < |ts| && s in ts[i].skills :: s in SkillNames(cats[i].skills)
    ensures forall i | 0 <= i < |ts| :: NoDups(ts[i].skills)
  {
    assert ts[0].skills[0] == SkillNames(cats[0].skills)[0];
    assert ts[0].skills[1] == SkillNames(cats[0].skills)[2];
    assert ts[1].skills[0] == SkillNames(cats[1].skills)[0];
    assert ts[1].skills[1] == SkillNames(cats[1].skills)[5];
    assert ts[1].skills[2] == SkillNames(cats[1].skills)[6];
    assert ts[2].skills[0] == SkillNames(cats[2].skills)[0];
    assert ts[7].skills[0] == SkillNames(cats[7].skills)[5];
  }

  /** With distinct category names, looking up a category finds its own
      skills. */
  lemma CatalogSkillsUnique(cats: seq<CatalogCategory>, i: nat)
    requires NoDups(CategoryNames(cats)) && i < |cats|
    ensures CatalogSkills(cats, cats[i].category) == cats[i].skills
  {
    assert forall j | 0 <= j < i :: CategoryNames(cats)[j] != CategoryNames(cats)[i];
  }

  /** Skill names are not unique across the catalog: Swift and Kotlin are
      listed under both "Programming Languages" and "Mobile App
      Development". */
  lemma SharedSkillNames()
    ensures TechCatalog[0].category == "Programming Languages"
    ensures TechCatalog[3].category == "Mobile App Development"
    ensures "Swift" in SkillNames(TechCatalog[0].skills) && "Swift" in SkillNames(TechCatalog[3].skills)
    ensures "Kotlin" in SkillNames(TechCatalog[0].skills) && "Kotlin" in SkillNames(TechCatalog[3].skills)
  {
    assert SkillNames(TechCatalog[0].skills)[10] == "Swift";
    assert SkillNames(TechCatalog[0].skills)[11] == "Kotlin";
    assert SkillNames(TechCatalog[3].skills)[2] == "Swift";
    assert SkillNames(TechCatalog[3].skills)[3] == "Kotlin";
  }

  /** No category after "Mobile App Development" lists Swift or Kotlin. */
  lemma SharedSkillNotLater(j: nat, n: string)
    requires 3 < j < |TechCatalog| && (n == "Swift" || n == "Kotlin")
    ensures n !in SkillNames(TechCatalog[j].skills)
  {
  }

  function SocialPlatformNames(): (r: seq<string>)
    ensures |r| == |SocialPlatforms| && forall i | 0 <= i < |r| :: r[i] == SocialPlatforms[i].name
  {
    seq(|SocialPlatforms|, i requires 0 <= i < |SocialPlatforms| => SocialPlatforms[i].name)
  }

  function ProblemSolvingPlatformNames(): (r: seq<string>)
    ensures |r| == |ProblemSolvingPlatforms| && forall i | 0 <= i < |r| :: r[i] == ProblemSolvingPlatforms[i].name
  {
    seq(|ProblemSolvingPlatforms|, i requires 0 <= i < |ProblemSolvingPlatforms| => ProblemSolvingPlatforms[i].name)
  }

  /** The platform names of each catalog are pairwise distinct, so a
      lookup by name finds the one platform of that name. */
  lemma PlatformNamesDistinct()
    ensures NoDups(SocialPlatformNames())
    ensures NoDups(ProblemSolvingPlatformNames())
    ensures forall i | 0 <= i < |SocialPlatforms| :: FindSocialPlatform(SocialPlatforms[i].name) == Some(SocialPlatforms[i])
    ensures forall i | 0 <= i < |ProblemSolvingPlatforms| ::
      FindProblemSolvingPlatform(ProblemSolvingPlatforms[i].name) == Some(ProblemSolvingPlatforms[i])
  {
    SocialNamesDistinct(SocialPlatformNames());
    ProblemSolvingNamesDistinct(ProblemSolvingPlatformNames());
    forall i | 0 <= i < |SocialPlatforms| ensures FindSocialPlatform(SocialPlatforms[i].name) == Some(SocialPlatforms[i]) {
      assert forall j | 0 <= j < |SocialPlatforms| && j != i ::
        SocialPlatformNames()[j] != SocialPlatformNames()[i];
      FindUnique(SocialPlatforms, SocialName, i);
    }
    forall i | 0 <= i < |ProblemSolvingPlatforms|
      ensures FindProblemSolvingPlatform(ProblemSolvingPlatforms[i].name) == Some(ProblemSolvingPlatforms[i])
    {
      assert forall j | 0 <= j < |ProblemSolvingPlatforms| && j != i ::
        ProblemSolvingPlatformNames()[j] != ProblemSolvingPlatformNames()[i];
      FindUnique(ProblemSolvingPlatforms, ProblemSolvingName, i);
    }
  }

  lemma SocialNamesDistinct(names: seq<string>)
    requires names == SocialPlatformNames()
    ensures NoDups(names)
  {
    assert names == ["GitHub", "LinkedIn", "Twitter", "Medium", "DEV.to", "Stack Overflow",
      "YouTube", "Instagram", "Facebook", "Dribbble", "Behance", "Website"];
  }

  lemma ProblemSolvingNamesDistinct(names: seq<string>)
    requires names == ProblemSolvingPlatformNames()
    ensures NoDups(names)
  {
    assert names == ["HackerRank", "LeetCode", "CodeChef", "CodeSignal"];
  }

  /** When no other entry has the key of entry `i`, the lookup by that key
      finds entry `i`. */
  lemma {:induction false} FindUnique<T>(ps: seq<T>, key: T -> string, i: nat)
    requires i < |ps|
    requires forall j | 0 <= j < |ps| && j != i :: key(ps[j]) != key(ps[i])
    ensures FindBy(ps, key, key(ps[i])) == Some(ps[i])
  {
    if i > 0 {
      FindUnique(ps[1..], key, i - 1);
    }
  }

  /** `PROJECT_CATEGORIES` lists the nine members of `ProjectCategory`,
      each once. */
  lemma ProjectCategoriesShape()
    ensures |ProjectCategories| == 9 && NoDups(ProjectCategories)
    ensures forall c: ProjectCategoryName :: c.Name() in ProjectCategories
    ensures forall s | s in ProjectCategories :: exists c: ProjectCategoryName :: c.Name() == s
  {
    assert StaticWebsite.Name() == ProjectCategories[0];
    assert WebApplication.Name() == ProjectCategories[1];
    assert ConsoleApplication.Name() == ProjectCategories[2];
    assert GuiApplication.Name() == ProjectCategories[3];
    assert Game.Name() == ProjectCategories[4];
    assert Script.Name() == ProjectCategories[5];
    assert ResearchCategory.Name() == ProjectCategories[6];
    assert LiveService.Name() == ProjectCategories[7];
    assert OtherCategory.Name() == ProjectCategories[8];
  }

  /** Both section orders list each key once; the initial one also holds
      `appearance`, which renders nothing. */
  lemma SectionOrdersDistinct()
    ensures NoDups(DefaultSectionOrder)
    ensures NoDups(InitialSectionOrder)
    ensures Appearance in InitialSectionOrder && Appearance !in DefaultSectionOrder
  {
    DefaultKeysDistinct(DefaultSectionOrder);
    InitialKeysDistinct(InitialSectionOrder);
  }

  /** The position of each key in the default order, -1 for the keys it
      leaves out. */
  function DefaultPosition(k: SectionKey): int
  {
    match k
    case MainHeaderBanner => 0 case ProfileHeaderBanner => 1 case BasicInfo => 2
    case MyMission => 3 case Socials => 4 case TechStack => 5 case GithubStats => 6
    case GithubAnalytics => 7 case WorkExperience => 8 case FeaturedProjects => 9
    case Projects => 10 case Volunteering => 11 case Education => 12
    case Certifications => 13 case Research => 14 case Awards => 15
    case Publications => 16 case Talks => 17 case Languages => 18 case Hobbies => 19
    case Hackathons => 20 case ProblemSolving => 21 case SupportMe => 22
    case BlogPosts => 23 case CustomHtml => 24 case Footer => 25
    case _ => -1
  }

  /** The position of each key in the initial order, -1 for the keys it
      leaves out. */
  function InitialPosition(k: SectionKey): int
  {
    match k
    case MainHeaderBanner => 0 case ProfileHeaderBanner => 1 case Appearance => 2
    case BasicInfo => 3 case MyMission => 4 case GithubStats => 5
    case GithubAnalytics => 6 case Socials => 7 case TechStack => 8
    case WorkExperience => 9 case FeaturedProjects => 10 case Projects => 11
    case Volunteering => 12 case Education => 13 case Certifications => 14
    case Research => 15 case Awards => 16 case Publications => 17 case Talks => 18
    case Languages => 19 case Hobbies => 20 case Hackathons => 21
    case ProblemSolving => 22 case SupportMe => 23 case BlogPosts => 24
    case CustomHtml => 25 case Footer => 26
    case _ => -1
  }

  /** A list whose every element names its own position has no repeats. */
  lemma NoDupsByPosition(order: seq<SectionKey>, pos: SectionKey -> int)
    requires forall i | 0 <= i < |order| :: pos(order[i]) == i
    ensures NoDups(order)
  {
    forall i, j | 0 <= i < j < |order| ensures order[i] != order[j] {
      assert pos(order[i]) != pos(order[j]);
    }
  }

  /** The default section order is free of repeats. */
  lemma DefaultKeysDistinct(order: seq<SectionKey>)
    requires order == DefaultSectionOrder
    ensures NoDups(order)
  {
    forall i | 0 <= i < |order| ensures DefaultPosition(order[i]) == i {
      if i < 7 {
      } else if i < 14 {
      } else if i < 21 {
      } else {
      }
    }
    NoDupsByPosition(order, DefaultPosition);
  }

  /** The initial section order is free of repeats. */
  lemma InitialKeysDistinct(order: seq<SectionKey>)
    requires order == InitialSectionOrder
    ensures NoDups(order)
  {
    forall i | 0 <= i < |order| ensures InitialPosition(order[i]) == i {
      if i < 7 {
      } else if i < 14 {
      } else if i < 21 {
      } else {
      }
    }
    NoDupsByPosition(order, InitialPosition);
  }

  /** 'gradient-1' is a background key, and it is the initial choice. */
  lemma DefaultBackgroundExists()
    ensures FindBackground(HeaderBackgrounds, "gradient-1") == Some(HeaderBackgrounds[0].1)
    ensures InitialFormData().profileHeader.background == "gradient-1"
  {
    var bgs := HeaderBackgrounds;
    assert bgs[0].0 == "gradient-1";
    assert FindBackground(bgs, "gradient-1") == Some(bgs[0].1);
  }
}
