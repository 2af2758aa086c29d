/** The collection formatters of the renderer table: each one keeps the
    entries that have the fields it needs, writes one block per entry, joins
    the blocks, and puts its heading in front unless nothing is left. */
module ListSections {
  import opened Wrappers
  import opened Types
  import opened Constants
  import JsString

  // ---------------------------------------------------------------------
  // The shared shape
  // ---------------------------------------------------------------------

  /** `xs.filter(keep)` */
  function Filter<T(==,!new)>(xs: seq<T>, keep: T -> bool): (r: seq<T>)
    ensures |r| <= |xs|
    ensures forall x :: x in r <==> x in xs && keep(x)
  {
    if |xs| == 0 then []
    else
      var rest := Filter(xs[1..], keep);
      assert forall x :: x in xs <==> x == xs[0] || x in xs[1..] by {
        assert xs == [xs[0]] + xs[1..];
      }
      if keep(xs[0]) then [xs[0]] + rest else rest
  }

  /** `xs.map(f)` */
  function Map<T>(xs: seq<T>, f: T -> string): (r: seq<string>)
    ensures |r| == |xs|
    ensures forall i | 0 <= i < |xs| :: r[i] == f(xs[i])
  {
    seq(|xs|, i requires 0 <= i < |xs| => f(xs[i]))
  }

  /** `content ? heading + content : ''` */
  function Titled(heading: string, content: string): (r: string)
    ensures content == "" ==> r == ""
    ensures content != "" ==> r == heading + content
  {
    if content != "" then heading + content else ""
  }

  /** A filtered, templated and joined list with a heading is empty exactly
      when no entry passes the filter, and otherwise starts with the
      heading. */
  lemma ListSectionEmpty<T(!new)>(heading: string, xs: seq<T>, keep: T -> bool, block: T -> string, sep: string)
    requires sep != ""
    requires forall x | x in xs && keep(x) :: block(x) != ""
    ensures var r := Titled(heading, JsString.Join(Map(Filter(xs, keep), block), sep));
      (r == "" <==> forall x | x in xs :: !keep(x))
      && (r != "" ==> JsString.StartsWith(r, heading))
  {
    var kept := Filter(xs, keep);
    var parts := Map(kept, block);
    var content := JsString.Join(parts, sep);
    JsString.JoinEmpty(parts, sep);
    if |kept| > 0 {
      assert kept[0] in kept;
      assert parts[0] != "";
    }
    if content != "" {
      PrefixStarts(heading, content);
    }
  }

  /** Such a list holds the block of every entry that passes the filter. */
  lemma ListSectionShows<T(!new)>(heading: string, xs: seq<T>, keep: T -> bool, block: T -> string, sep: string, x: T)
    requires x in xs && keep(x)
    ensures JsString.Contains(Titled(heading, JsString.Join(Map(Filter(xs, keep), block), sep)), block(x))
  {
    var kept := Filter(xs, keep);
    var parts := Map(kept, block);
    var content := JsString.Join(parts, sep);
    assert x in kept;
    var i :| 0 <= i < |kept| && kept[i] == x;
    JsString.JoinContains(parts, sep, i);
    if content != "" {
      JsString.ContainsConcat(heading, content, block(x));
    }
  }

  lemma PrefixStarts(a: string, b: string)
    ensures JsString.StartsWith(a + b, a)
  {
    assert (a + b)[..|a|] == a;
  }

  /** `description.split('\n').map(line => `- ${line.trim()}`).join('\n')`,
      or nothing for an empty description. */
  function DescriptionBullets(description: string): string
  {
    if description != "" then
      JsString.Join(Map(JsString.Split(description, '\n'), line => "- " + JsString.Trim(line)), "\n")
    else ""
  }

  // ---------------------------------------------------------------------
  // Work experience and volunteering
  // ---------------------------------------------------------------------

  const WorkHeading := "### " + "\U{00F0}\U{0178}\U{2019}\U{00BC} Work Experience\n\n"

  predicate KeepWork(w: WorkEntry)
  {
    w.title != "" && w.company != ""
  }

  function WorkBlock(w: WorkEntry): string
  {
    JsString.Template(["**", w.title, "** at **", w.company, "** (_", w.duration, "_)\n", DescriptionBullets(w.description)])
  }

  /** `workExperience()` */
  function RenderWorkExperience(d: FormData): string
  {
    Titled(WorkHeading, JsString.Join(Map(Filter(d.workExperience, KeepWork), WorkBlock), "\n\n"))
  }

  /** Empty exactly when no entry has both a title and a company; otherwise it starts with its heading. */
  lemma WorkExperienceEmpty(d: FormData)
    ensures RenderWorkExperience(d) == "" <==> forall w | w in d.workExperience :: !KeepWork(w)
    ensures RenderWorkExperience(d) != "" ==> JsString.StartsWith(RenderWorkExperience(d), WorkHeading)
  {
    forall w | w in d.workExperience && KeepWork(w) ensures WorkBlock(w) != "" {
      assert WorkBlock(w)[0] in "-*";
    }
    ListSectionEmpty(WorkHeading, d.workExperience, KeepWork, WorkBlock, "\n\n");
  }

  /** An entry that passes the filter shows the title and the company. */
  lemma WorkExperienceShown(d: FormData, w: WorkEntry)
    requires w in d.workExperience && KeepWork(w)
    ensures JsString.Contains(RenderWorkExperience(d), w.title) && JsString.Contains(RenderWorkExperience(d), w.company)
  {
    ListSectionShows(WorkHeading, d.workExperience, KeepWork, WorkBlock, "\n\n", w);
    WorkBlockShows(w);
    JsString.ContainsTrans(RenderWorkExperience(d), WorkBlock(w), w.title);
    JsString.ContainsTrans(RenderWorkExperience(d), WorkBlock(w), w.company);
  }

  /** The second and fourth pieces of an eight-piece template are found in it. */
  lemma BlockShows(p0: string, p1: string, p2: string, p3: string, p4: string, p5: string, p6: string, p7: string)
    ensures JsString.Contains(JsString.Template([p0, p1, p2, p3, p4, p5, p6, p7]), p1)
    ensures JsString.Contains(JsString.Template([p0, p1, p2, p3, p4, p5, p6, p7]), p3)
  {
    JsString.TemplateHas([p0, p1, p2, p3, p4, p5, p6, p7], 1);
    JsString.TemplateHas([p0, p1, p2, p3, p4, p5, p6, p7], 3);
  }

  lemma WorkBlockShows(w: WorkEntry)
    ensures JsString.Contains(WorkBlock(w), w.title) && JsString.Contains(WorkBlock(w), w.company)
  {
    BlockShows("**", w.title, "** at **", w.company, "** (_", w.duration, "_)\n", DescriptionBullets(w.description));
  }

  const VolunteeringHeading := "### " + "\U{00F0}\U{0178}\U{00A4} Volunteering\n\n"

  predicate KeepVolunteering(v: Volunteering)
  {
    v.organization != "" && v.role != ""
  }

  function VolunteeringBlock(v: Volunteering): string
  {
    JsString.Template(["**", v.role, "** at **", v.organization, "** (_", v.duration, "_)\n", DescriptionBullets(v.description)])
  }

  /** `volunteering()` */
  function RenderVolunteering(d: FormData): string
  {
    Titled(VolunteeringHeading, JsString.Join(Map(Filter(d.volunteering, KeepVolunteering), VolunteeringBlock), "\n\n"))
  }

  /** Empty exactly when no entry has both an organization and a role; otherwise it starts with its heading. */
  lemma VolunteeringEmpty(d: FormData)
    ensures RenderVolunteering(d) == "" <==> forall v | v in d.volunteering :: !KeepVolunteering(v)
    ensures RenderVolunteering(d) != "" ==> JsString.StartsWith(RenderVolunteering(d), VolunteeringHeading)
  {
    forall v | v in d.volunteering && KeepVolunteering(v) ensures VolunteeringBlock(v) != "" {
      assert VolunteeringBlock(v)[0] in "-*";
    }
    ListSectionEmpty(VolunteeringHeading, d.volunteering, KeepVolunteering, VolunteeringBlock, "\n\n");
  }

  /** An entry that passes the filter shows the role and the organization. */
  lemma VolunteeringShown(d: FormData, v: Volunteering)
    requires v in d.volunteering && KeepVolunteering(v)
    ensures JsString.Contains(RenderVolunteering(d), v.role) && JsString.Contains(RenderVolunteering(d), v.organization)
  {
    ListSectionShows(VolunteeringHeading, d.volunteering, KeepVolunteering, VolunteeringBlock, "\n\n", v);
    VolunteeringBlockShows(v);
    JsString.ContainsTrans(RenderVolunteering(d), VolunteeringBlock(v), v.role);
    JsString.ContainsTrans(RenderVolunteering(d), VolunteeringBlock(v), v.organization);
  }

  lemma VolunteeringBlockShows(v: Volunteering)
    ensures JsString.Contains(VolunteeringBlock(v), v.role) && JsString.Contains(VolunteeringBlock(v), v.organization)
  {
    BlockShows("**", v.role, "** at **", v.organization, "** (_", v.duration, "_)\n", DescriptionBullets(v.description));
  }

  // ---------------------------------------------------------------------
  // Education, certifications, research, awards, publications, talks
  // ---------------------------------------------------------------------

  const EducationHeading := "### " + "\U{00F0}\U{0178}\U{017D}\U{201C} Education\n\n"

  predicate KeepEducation(e: EducationEntry)
  {
    e.institution != ""
  }

  function EducationBlock(e: EducationEntry): string
  {
    JsString.Template(["- **", JsString.OrElse(e.degree, "Degree"), "** from **", e.institution, "** (_", JsString.OrElse(e.duration, "Year"), "_)"])
  }

  /** `education()` */
  function RenderEducation(d: FormData): string
  {
    Titled(EducationHeading, JsString.Join(Map(Filter(d.education, KeepEducation), EducationBlock), "\n"))
  }

  /** Empty exactly when no entry names an institution; otherwise it starts
      with its heading. */
  lemma EducationEmpty(d: FormData)
    ensures RenderEducation(d) == "" <==> forall e | e in d.education :: !KeepEducation(e)
    ensures RenderEducation(d) != "" ==> JsString.StartsWith(RenderEducation(d), EducationHeading)
  {
    forall e | e in d.education && KeepEducation(e) ensures EducationBlock(e) != "" {
      assert EducationBlock(e)[0] == '-';
    }
    ListSectionEmpty(EducationHeading, d.education, KeepEducation, EducationBlock, "\n");
  }

  /** A named institution is shown, with its degree and duration or, when
      they are missing, "Degree" and "Year" in their place. */
  lemma EducationShown(d: FormData, e: EducationEntry)
    requires e in d.education && KeepEducation(e)
    ensures JsString.Contains(RenderEducation(d), e.institution)
    ensures JsString.Contains(RenderEducation(d), JsString.OrElse(e.degree, "Degree"))
    ensures JsString.Contains(RenderEducation(d), JsString.OrElse(e.duration, "Year"))
  {
    ListSectionShows(EducationHeading, d.education, KeepEducation, EducationBlock, "\n", e);
    var pieces := ["- **", JsString.OrElse(e.degree, "Degree"), "** from **", e.institution, "** (_", JsString.OrElse(e.duration, "Year"), "_)"];
    JsString.TemplateHas(pieces, 1);
    JsString.TemplateHas(pieces, 3);
    JsString.TemplateHas(pieces, 5);
    JsString.ContainsTrans(RenderEducation(d), EducationBlock(e), e.institution);
    JsString.ContainsTrans(RenderEducation(d), EducationBlock(e), JsString.OrElse(e.degree, "Degree"));
    JsString.ContainsTrans(RenderEducation(d), EducationBlock(e), JsString.OrElse(e.duration, "Year"));
  }

  const CertificationsHeading := "### " + "\U{00F0}\U{0178}\U{201C}\U{0153} Certifications\n\n"

  predicate KeepCertification(c: Certification)
  {
    c.name != ""
  }

  /** The name, linked to the certificate's URL when there is one. */
  function CertificationLink(c: Certification): string
  {
    if c.url != "" then JsString.Template(["[", c.name, "](", c.url, ")"]) else c.name
  }

  function CertificationBlock(c: Certification): string
  {
    JsString.Template(["- **", CertificationLink(c), "** from _", c.issuer, "_ (", c.date, ")"])
  }

  /** `certifications()` */
  function RenderCertifications(d: FormData): string
  {
    Titled(CertificationsHeading, JsString.Join(Map(Filter(d.certifications, KeepCertification), CertificationBlock), "\n"))
  }

  /** Empty exactly when no entry has a name; otherwise it starts with its
      heading. */
  lemma CertificationsEmpty(d: FormData)
    ensures RenderCertifications(d) == "" <==> forall c | c in d.certifications :: !KeepCertification(c)
    ensures RenderCertifications(d) != "" ==> JsString.StartsWith(RenderCertifications(d), CertificationsHeading)
  {
    forall c | c in d.certifications && KeepCertification(c) ensures CertificationBlock(c) != "" {
      assert CertificationBlock(c)[0] == '-';
    }
    ListSectionEmpty(CertificationsHeading, d.certifications, KeepCertification, CertificationBlock, "\n");
  }

  /** A named certification is shown by name, as a link when it has a URL. */
  lemma CertificationShown(d: FormData, c: Certification)
    requires c in d.certifications && KeepCertification(c)
    ensures JsString.Contains(RenderCertifications(d), c.name)
    ensures c.url != "" ==> JsString.Contains(RenderCertifications(d), JsString.Template(["[", c.name, "](", c.url, ")"]))
  {
    ListSectionShows(CertificationsHeading, d.certifications, KeepCertification, CertificationBlock, "\n", c);
    JsString.TemplateHas(["- **", CertificationLink(c), "** from _", c.issuer, "_ (", c.date, ")"], 1);
    JsString.ContainsTrans(RenderCertifications(d), CertificationBlock(c), CertificationLink(c));
    if c.url != "" {
      JsString.TemplateHas(["[", c.name, "](", c.url, ")"], 1);
    } else {
      JsString.ContainsSelf(c.name);
    }
    JsString.ContainsTrans(RenderCertifications(d), CertificationLink(c), c.name);
  }

  const ResearchHeading := "### " + "\U{00F0}\U{0178}\U{201D}\U{00AC} Research\n\n"

  predicate KeepResearch(r: ResearchEntry)
  {
    r.title != ""
  }

  function ResearchBlock(r: ResearchEntry): string
  {
    JsString.Template(["- **[", r.title, "](", r.url, ")** - _", r.publication, "_ (", r.date, ")\n  - ", r.description])
  }

  /** `research()` */
  function RenderResearch(d: FormData): string
  {
    Titled(ResearchHeading, JsString.Join(Map(Filter(d.research, KeepResearch), ResearchBlock), "\n\n"))
  }

  /** Empty exactly when no entry has a title; otherwise it starts with its heading. */
  lemma ResearchEmpty(d: FormData)
    ensures RenderResearch(d) == "" <==> forall r | r in d.research :: !KeepResearch(r)
    ensures RenderResearch(d) != "" ==> JsString.StartsWith(RenderResearch(d), ResearchHeading)
  {
    forall r | r in d.research && KeepResearch(r) ensures ResearchBlock(r) != "" {
      assert ResearchBlock(r)[0] in "-*";
    }
    ListSectionEmpty(ResearchHeading, d.research, KeepResearch, ResearchBlock, "\n\n");
  }

  /** An entry that passes the filter shows the title. */
  lemma ResearchShown(d: FormData, r: ResearchEntry)
    requires r in d.research && KeepResearch(r)
    ensures JsString.Contains(RenderResearch(d), r.title)
  {
    ListSectionShows(ResearchHeading, d.research, KeepResearch, ResearchBlock, "\n\n", r);
    JsString.TemplateHas(["- **[", r.title, "](", r.url, ")** - _", r.publication, "_ (", r.date, ")\n  - ", r.description], 1);
    JsString.ContainsTrans(RenderResearch(d), ResearchBlock(r), r.title);
  }

  const AwardsHeading := "### " + "\U{00F0}\U{0178}\U{2020} Awards & Recognition\n\n"

  predicate KeepAward(a: Award)
  {
    a.name != ""
  }

  function AwardBlock(a: Award): string
  {
    JsString.Template(["- **", a.name, "** from _", a.issuer, "_ (", a.date, ")"])
  }

  /** `awards()` */
  function RenderAwards(d: FormData): string
  {
    Titled(AwardsHeading, JsString.Join(Map(Filter(d.awards, KeepAward), AwardBlock), "\n"))
  }

  /** Empty exactly when no entry has a name; otherwise it starts with its heading. */
  lemma AwardsEmpty(d: FormData)
    ensures RenderAwards(d) == "" <==> forall a | a in d.awards :: !KeepAward(a)
    ensures RenderAwards(d) != "" ==> JsString.StartsWith(RenderAwards(d), AwardsHeading)
  {
    forall a | a in d.awards && KeepAward(a) ensures AwardBlock(a) != "" {
      assert AwardBlock(a)[0] in "-*";
    }
    ListSectionEmpty(AwardsHeading, d.awards, KeepAward, AwardBlock, "\n");
  }

  /** An entry that passes the filter shows the name. */
  lemma AwardsShown(d: FormData, a: Award)
    requires a in d.awards && KeepAward(a)
    ensures JsString.Contains(RenderAwards(d), a.name)
  {
    ListSectionShows(AwardsHeading, d.awards, KeepAward, AwardBlock, "\n", a);
    JsString.TemplateHas(["- **", a.name, "** from _", a.issuer, "_ (", a.date, ")"], 1);
    JsString.ContainsTrans(RenderAwards(d), AwardBlock(a), a.name);
  }

  const PublicationsHeading := "### " + "\U{00F0}\U{0178}\U{201C}\U{0161} Publications\n\n"

  predicate KeepPublication(p: Publication)
  {
    p.title != ""
  }

  function PublicationBlock(p: Publication): string
  {
    JsString.Template(["- [", p.title, "](", p.url, ") - _", p.journal, "_ (", p.date, ")"])
  }

  /** `publications()` */
  function RenderPublications(d: FormData): string
  {
    Titled(PublicationsHeading, JsString.Join(Map(Filter(d.publications, KeepPublication), PublicationBlock), "\n"))
  }

  /** Empty exactly when no entry has a title; otherwise it starts with its heading. */
  lemma PublicationsEmpty(d: FormData)
    ensures RenderPublications(d) == "" <==> forall p | p in d.publications :: !KeepPublication(p)
    ensures RenderPublications(d) != "" ==> JsString.StartsWith(RenderPublications(d), PublicationsHeading)
  {
    forall p | p in d.publications && KeepPublication(p) ensures PublicationBlock(p) != "" {
      assert PublicationBlock(p)[0] in "-*";
    }
    ListSectionEmpty(PublicationsHeading, d.publications, KeepPublication, PublicationBlock, "\n");
  }

  /** An entry that passes the filter shows the title. */
  lemma PublicationsShown(d: FormData, p: Publication)
    requires p in d.publications && KeepPublication(p)
    ensures JsString.Contains(RenderPublications(d), p.title)
  {
    ListSectionShows(PublicationsHeading, d.publications, KeepPublication, PublicationBlock, "\n", p);
    JsString.TemplateHas(["- [", p.title, "](", p.url, ") - _", p.journal, "_ (", p.date, ")"], 1);
    JsString.ContainsTrans(RenderPublications(d), PublicationBlock(p), p.title);
  }

  const TalksHeading := "### " + "\U{00F0}\U{0178}\U{017D}\U{00A4} Talks & Presentations\n\n"

  predicate KeepTalk(t: Talk)
  {
    t.title != ""
  }

  function TalkBlock(t: Talk): string
  {
    JsString.Template(["- [", t.title, "](", t.url, ") at **", t.event, "** (", t.date, ")"])
  }

  /** `talks()` */
  function RenderTalks(d: FormData): string
  {
    Titled(TalksHeading, JsString.Join(Map(Filter(d.talks, KeepTalk), TalkBlock), "\n"))
  }

  /** Empty exactly when no entry has a title; otherwise it starts with its heading. */
  lemma TalksEmpty(d: FormData)
    ensures RenderTalks(d) == "" <==> forall t | t in d.talks :: !KeepTalk(t)
    ensures RenderTalks(d) != "" ==> JsString.StartsWith(RenderTalks(d), TalksHeading)
  {
    forall t | t in d.talks && KeepTalk(t) ensures TalkBlock(t) != "" {
      assert TalkBlock(t)[0] in "-*";
    }
    ListSectionEmpty(TalksHeading, d.talks, KeepTalk, TalkBlock, "\n");
  }

  /** An entry that passes the filter shows the title. */
  lemma TalksShown(d: FormData, t: Talk)
    requires t in d.talks && KeepTalk(t)
    ensures JsString.Contains(RenderTalks(d), t.title)
  {
    ListSectionShows(TalksHeading, d.talks, KeepTalk, TalkBlock, "\n", t);
    JsString.TemplateHas(["- [", t.title, "](", t.url, ") at **", t.event, "** (", t.date, ")"], 1);
    JsString.ContainsTrans(RenderTalks(d), TalkBlock(t), t.title);
  }

  // ---------------------------------------------------------------------
  // Hackathons and problem-solving profiles
  // ---------------------------------------------------------------------

  const HackathonsHeading := "### " + "\U{00F0}\U{0178}\U{2020} Hackathons\n\n"

  predicate KeepHackathon(h: Hackathon)
  {
    h.name != ""
  }

  /** The name, then a bullet for the description and one for the link
      when they are set. */
  function HackathonBlock(h: Hackathon): string
  {
    JsString.Template(["- **", h.name, "**",
      if h.description != "" then "\n  - " + h.description else "",
      if h.link != "" then "\n  - [Project Link](" + h.link + ")" else ""])
  }

  /** `hackathons()` */
  function RenderHackathons(d: FormData): string
  {
    Titled(HackathonsHeading, JsString.Join(Map(Filter(d.hackathons, KeepHackathon), HackathonBlock), "\n"))
  }

  /** Empty exactly when no entry has a name; otherwise it starts with its
      heading. */
  lemma HackathonsEmpty(d: FormData)
    ensures RenderHackathons(d) == "" <==> forall h | h in d.hackathons :: !KeepHackathon(h)
    ensures RenderHackathons(d) != "" ==> JsString.StartsWith(RenderHackathons(d), HackathonsHeading)
  {
    forall h | h in d.hackathons && KeepHackathon(h) ensures HackathonBlock(h) != "" {
      assert HackathonBlock(h)[0] == '-';
    }
    ListSectionEmpty(HackathonsHeading, d.hackathons, KeepHackathon, HackathonBlock, "\n");
  }

  /** A named hackathon is shown by name, with its link when it has one. */
  lemma HackathonShown(d: FormData, h: Hackathon)
    requires h in d.hackathons && KeepHackathon(h)
    ensures JsString.Contains(RenderHackathons(d), h.name)
    ensures h.link != "" ==> JsString.Contains(RenderHackathons(d), "\n  - [Project Link](" + h.link + ")")
  {
    ListSectionShows(HackathonsHeading, d.hackathons, KeepHackathon, HackathonBlock, "\n", h);
    var pieces := ["- **", h.name, "**",
      if h.description != "" then "\n  - " + h.description else "",
      if h.link != "" then "\n  - [Project Link](" + h.link + ")" else ""];
    JsString.TemplateHas(pieces, 1);
    JsString.TemplateHas(pieces, 4);
    JsString.ContainsTrans(RenderHackathons(d), HackathonBlock(h), h.name);
    JsString.ContainsTrans(RenderHackathons(d), HackathonBlock(h), pieces[4]);
  }

  const ProblemSolvingHeading := "### " + "\U{00F0}\U{0178}\U{0161}\U{20AC} Problem Solving\n\n"

  predicate KeepProblemSolving(p: ProblemSolvingProfile)
  {
    p.username != ""
  }

  /** A badge linking to the profile on a known platform; nothing for a
      platform the catalog does not list. */
  function ProblemSolvingBlock(p: ProblemSolvingProfile): string
  {
    match FindProblemSolvingPlatform(p.platform)
    case Some(info) =>
      JsString.Template(["[![", p.platform, "](https://img.shields.io/badge/", p.platform,
        "-0D1117?style=for-the-badge&logo=", info.icon, "&logoColor=white)](", info.url, p.username, ")"])
    case None => ""
  }

  /** `problemSolving()` */
  function RenderProblemSolving(d: FormData): string
  {
    Titled(ProblemSolvingHeading,
      JsString.Join(Map(Filter(d.problemSolving, KeepProblemSolving), ProblemSolvingBlock), " "))
  }

  /** The badges themselves can be empty, so the section is empty when no
      profile has a username, and also when exactly one does and its
      platform is unknown; any two profiles with usernames produce the
      heading, even if neither platform is known. */
  lemma ProblemSolvingEmpty(d: FormData)
    ensures var kept := Filter(d.problemSolving, KeepProblemSolving);
      RenderProblemSolving(d) == "" <==>
        |kept| == 0 || (|kept| == 1 && FindProblemSolvingPlatform(kept[0].platform).None?)
  {
    var kept := Filter(d.problemSolving, KeepProblemSolving);
    var parts := Map(kept, ProblemSolvingBlock);
    JsString.JoinEmpty(parts, " ");
    if |kept| == 1 {
      assert parts[0] == ProblemSolvingBlock(kept[0]);
      if FindProblemSolvingPlatform(kept[0].platform).Some? {
        assert parts[0][0] == '[';
      }
    }
  }

  /** A profile with a username on a known platform shows the username in
      its link. */
  lemma KnownPlatformShowsUser(d: FormData, p: ProblemSolvingProfile)
    requires p in d.problemSolving && KeepProblemSolving(p)
    requires FindProblemSolvingPlatform(p.platform).Some?
    ensures JsString.Contains(RenderProblemSolving(d), p.username)
  {
    ListSectionShows(ProblemSolvingHeading, d.problemSolving, KeepProblemSolving, ProblemSolvingBlock, " ", p);
    var info := FindProblemSolvingPlatform(p.platform).value;
    JsString.TemplateHas(["[![", p.platform, "](https://img.shields.io/badge/", p.platform,
      "-0D1117?style=for-the-badge&logo=", info.icon, "&logoColor=white)](", info.url, p.username, ")"], 8);
    JsString.ContainsTrans(RenderProblemSolving(d), ProblemSolvingBlock(p), p.username);
  }

  // ---------------------------------------------------------------------
  // Tag lists
  // ---------------------------------------------------------------------

  const LanguagesHeading := "### " + "\U{00F0}\U{0178}\U{2014}\U{00A3}\U{00EF}\U{00B8} Languages\n\n"
  const HobbiesHeading := "### " + "\U{00F0}\U{0178}\U{017D}\U{00A8} Hobbies & Interests\n\n"

  /** `items.length > 0 ? heading + '- ' + items.join('\n- ') : ''` */
  function Bullets(heading: string, items: seq<string>): string
  {
    if |items| > 0 then heading + "- " + JsString.Join(items, "\n- ") else ""
  }

  /** `languages()` */
  function RenderLanguages(d: FormData): string
  {
    Bullets(LanguagesHeading, d.languages)
  }

  /** `hobbies()` */
  function RenderHobbies(d: FormData): string
  {
    Bullets(HobbiesHeading, d.hobbies)
  }

  /** A tag section is empty exactly when its list is, and shows every tag
      otherwise; unlike the other lists, an empty tag still counts. */
  lemma BulletsSection(heading: string, items: seq<string>)
    ensures Bullets(heading, items) == "" <==> |items| == 0
    ensures forall i | 0 <= i < |items| :: JsString.Contains(Bullets(heading, items), items[i])
  {
    forall i | 0 <= i < |items| ensures JsString.Contains(Bullets(heading, items), items[i]) {
      JsString.JoinContains(items, "\n- ", i);
      JsString.ContainsConcat(heading + "- ", JsString.Join(items, "\n- "), items[i]);
    }
  }

  lemma TagSections(d: FormData)
    ensures RenderLanguages(d) == "" <==> |d.languages| == 0
    ensures RenderHobbies(d) == "" <==> |d.hobbies| == 0
    ensures forall i | 0 <= i < |d.languages| :: JsString.Contains(RenderLanguages(d), d.languages[i])
    ensures forall i | 0 <= i < |d.hobbies| :: JsString.Contains(RenderHobbies(d), d.hobbies[i])
  {
    BulletsSection(LanguagesHeading, d.languages);
    BulletsSection(HobbiesHeading, d.hobbies);
  }
}
