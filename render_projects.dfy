/** `renderProject` and the two project renderers of the renderer table:
    the featured projects and the projects grouped by category. */
module ProjectSections {
  import opened Types
  import opened Constants
  import JsString
  import ListSections

  // ---------------------------------------------------------------------
  // One project
  // ---------------------------------------------------------------------

  /** `**name**`, the title every style starts the project with. */
  function ProjectTitle(p: Project): string
  {
    "**" + p.name + "**"
  }

  /** The title, followed by the repository and demo links when there are
      any; the separator ` | ` only appears when there are both. */
  function ProjectHeader(p: Project): string
  {
    var title := ProjectTitle(p);
    if p.repoUrl != "" || p.liveUrl != "" then
      title + " - " + (if p.repoUrl != "" then "[Repo](" + p.repoUrl + ")" else "")
      + " " + (if p.repoUrl != "" && p.liveUrl != "" then " | " else "")
      + " " + (if p.liveUrl != "" then "[Live Demo](" + p.liveUrl + ")" else "")
    else title
  }

  /** `p.liveUrl || p.repoUrl || '#'` */
  function LinkTarget(p: Project): string
  {
    if p.liveUrl != "" then p.liveUrl else if p.repoUrl != "" then p.repoUrl else "#"
  }

  function BoxTechLine(p: Project): string
  {
    if |p.tech| > 0 then "<p><i>Tech: " + JsString.Join(p.tech, ", ") + "</i></p>" else ""
  }

  function BoxBadgesLine(p: Project): string
  {
    if p.customBadges != "" then "<p>" + p.customBadges + "</p>" else ""
  }

  /** The box content with a thumbnail: a table with the image, linked to
      the demo or the repository, beside the description. */
  function ThumbnailContent(p: Project, techLine: string, badges: string): string
  {
    "\n          <br>\n" + "          <table" + ">\n            <t" + "r>\n             "
    + " <td width=\"250\"" + " valign=\"top\">\n" + "                " + "<a href=\"" + LinkTarget(p)
    + "\" target=\"_blank" + "\" rel=\"noopener " + "noreferrer\">\n" + "                " + "  <img src=\""
    + p.thumbnailUrl + "\" alt=\"" + p.name + " thumbnail\" widt" + "h=\"250\" />\n" + "                "
    + "</a>\n" + "              </" + "td>\n" + "              <t" + "d valign=\"top\">\n"
    + "                " + "<p>" + p.description + "</p>\n" + "                " + "<br />\n"
    + "                " + techLine + "\n               " + " " + badges + "\n              <" + "/td>\n"
    + "            </tr" + ">\n          </ta" + "ble>\n" + "        "
  }

  /** The box content without a thumbnail, where the tech and badge lines
      lose their tags. */
  function PlainContent(p: Project, techLine: string, badges: string): string
  {
    "\n          <br>\n" + "          " + p.description + "\n          <br><" + "br>\n" + "          "
    + JsString.StripTags(techLine) + "\n          <br><" + "br>\n" + "          " + JsString.StripTags(badges)
    + "\n        "
  }

  /** The box: a collapsible block whose summary is the header. */
  function Details(header: string, content: string): string
  {
    "<details>\n" + "          <summary>" + header + "</summary>\n" + "          " + content + "\n        </details>"
  }

  /** The box content: with a table around the thumbnail when there is one. */
  function BoxContent(p: Project): string
  {
    if p.thumbnailUrl != "" then ThumbnailContent(p, BoxTechLine(p), BoxBadgesLine(p))
    else PlainContent(p, BoxTechLine(p), BoxBadgesLine(p))
  }

  /** The box template, indented as in the source and then trimmed. */
  function Box(header: string, content: string): string
  {
    JsString.Trim("\n        " + Details(header, content))
  }

  function ListTechLine(p: Project): string
  {
    if |p.tech| > 0 then "\n  - _Tech: " + JsString.Join(p.tech, ", ") + "_" else ""
  }

  function ListBadgesLine(p: Project): string
  {
    if p.customBadges != "" then "\n  - " + p.customBadges else ""
  }

  /** The list item: the header, then the description, tech and badges as
      sub-items. */
  function ListItem(header: string, description: string, techLine: string, badgesLine: string): string
  {
    "- " + header + "\n  - " + description + techLine + badgesLine
  }

  /** `renderProject(p)`: a collapsible box or a list item. */
  function RenderProject(style: ProjectStyle, p: Project): string
  {
    match style
    case ProjectBox => Box(ProjectHeader(p), BoxContent(p))
    case ProjectList => ListItem(ProjectHeader(p), p.description, ListTechLine(p), ListBadgesLine(p))
  }

  /** Trimming the box only removes the indentation in front of it. */
  lemma BoxIsDetails(header: string, content: string)
    ensures Box(header, content) == Details(header, content)
  {
    var tail := "\n        </details>";
    var core := Details(header, content);
    assert core[0] == '<';
    assert core[|core| - 1] == tail[|tail| - 1];
    assert JsString.AllWhite("\n        ");
    JsString.TrimLeading("\n        ", core);
  }

  /** What the header shows, the box shows. */
  lemma BoxShows(header: string, content: string, t: string)
    requires JsString.Contains(header, t)
    ensures JsString.Contains(Box(header, content), t)
  {
    BoxIsDetails(header, content);
    var front := "<details>\n" + "          <summary>";
    JsString.ContainsConcat(front, header, t);
    JsString.ContainsConcat(front + header, "</summary>\n", t);
    JsString.ContainsConcat(front + header + "</summary>\n", "          ", t);
    JsString.ContainsConcat(front + header + "</summary>\n" + "          ", content, t);
    JsString.ContainsConcat(front + header + "</summary>\n" + "          " + content, "\n        </details>", t);
  }

  /** A list item starts with its header and shows its tech line. */
  lemma ListItemParts(header: string, description: string, techLine: string, badgesLine: string)
    ensures JsString.StartsWith(ListItem(header, description, techLine, badgesLine), "- " + header)
    ensures JsString.Contains(ListItem(header, description, techLine, badgesLine), techLine)
  {
    var front := "- " + header;
    JsString.PrefixConcat(front, "\n  - " + description + techLine + badgesLine);
    assert ListItem(header, description, techLine, badgesLine) == front + ("\n  - " + description + techLine + badgesLine);
    JsString.ContainsEnd(front + "\n  - " + description, techLine);
    JsString.ContainsConcat(front + "\n  - " + description + techLine, badgesLine, techLine);
  }

  lemma HeaderStartsWithTitle(p: Project)
    ensures JsString.StartsWith(ProjectHeader(p), ProjectTitle(p))
  {
    var title := ProjectTitle(p);
    var links := ProjectHeader(p)[|title|..];
    assert ProjectHeader(p) == title + links;
    JsString.PrefixConcat(title, links);
  }

  /** Every style shows the project's title, and a list item starts with it;
      the list style also shows the technologies, joined by commas. */
  lemma ProjectShowsTitle(style: ProjectStyle, p: Project)
    ensures JsString.Contains(RenderProject(style, p), ProjectTitle(p))
    ensures style == ProjectList ==> JsString.StartsWith(RenderProject(style, p), "- " + ProjectTitle(p))
    ensures style == ProjectList && |p.tech| > 0 ==>
      JsString.Contains(RenderProject(style, p), JsString.Join(p.tech, ", "))
  {
    var header := ProjectHeader(p);
    var title := ProjectTitle(p);
    HeaderStartsWithTitle(p);
    match style
    case ProjectBox =>
      assert JsString.StartsWith(header[0..], title);
      BoxShows(header, BoxContent(p), title);
    case ProjectList =>
      var r := RenderProject(style, p);
      ListItemParts(header, p.description, ListTechLine(p), ListBadgesLine(p));
      BulletStartsWithTitle(r, header, title);
      if |p.tech| > 0 {
        JsString.ContainsInfix("\n  - _Tech: ", JsString.Join(p.tech, ", "), "_");
        JsString.ContainsTrans(r, ListTechLine(p), JsString.Join(p.tech, ", "));
      }
  }

  /** A bullet whose header starts with the title starts with the bulleted
      title and so shows it. */
  lemma BulletStartsWithTitle(r: string, header: string, title: string)
    requires JsString.StartsWith(r, "- " + header) && JsString.StartsWith(header, title)
    ensures JsString.StartsWith(r, "- " + title) && JsString.Contains(r, title)
  {
    assert r[..2 + |title|] == "- " + title by {
      assert r[..2 + |header|] == "- " + header;
      assert r[2..2 + |title|] == header[..|title|];
    }
    assert JsString.StartsWith(r[2..], title) by {
      assert r[2..][..|title|] == r[2..2 + |title|];
    }
  }

  // ---------------------------------------------------------------------
  // Project lists
  // ---------------------------------------------------------------------

  const FeaturedHeading := "### " + "\U{00F0}\U{0178}\U{0161}\U{20AC} Featured Projects\n\n"
  const AllProjectsHeading := "### " + "\U{00F0}\U{0178}\U{2019}\U{00BB} All My Projects\n\n"

  /** `projectStyle === 'list' ? '\n' : '\n\n'` */
  function ProjectSeparator(style: ProjectStyle): string
  {
    if style == ProjectList then "\n" else "\n\n"
  }

  predicate IsFeatured(p: Project)
  {
    p.isTopProject && p.name != ""
  }

  /** Named projects that are not top projects go to the category lists. */
  predicate IsListed(p: Project)
  {
    p.name != "" && !p.isTopProject
  }

  /** The projects, rendered one after another. */
  function RenderBlocks(style: ProjectStyle, ps: seq<Project>): string
  {
    JsString.Join(ListSections.Map(ps, p => RenderProject(style, p)), ProjectSeparator(style))
  }

  lemma BlocksShow(style: ProjectStyle, ps: seq<Project>, p: Project)
    requires p in ps
    ensures JsString.Contains(RenderBlocks(style, ps), RenderProject(style, p))
    ensures JsString.Contains(RenderBlocks(style, ps), ProjectTitle(p))
  {
    var i :| 0 <= i < |ps| && ps[i] == p;
    var parts := ListSections.Map(ps, q => RenderProject(style, q));
    JsString.JoinContains(parts, ProjectSeparator(style), i);
    ProjectShowsTitle(style, p);
    JsString.ContainsTrans(RenderBlocks(style, ps), RenderProject(style, p), ProjectTitle(p));
  }

  /** A filter that keeps nothing it is asked to keep is empty. */
  lemma FilterNone(ps: seq<Project>, keep: Project -> bool)
    requires forall p | p in ps :: !keep(p)
    ensures ListSections.Filter(ps, keep) == []
  {
  }

  // ---------------------------------------------------------------------
  // Featured projects
  // ---------------------------------------------------------------------

  function Featured(ps: seq<Project>): seq<Project>
  {
    ListSections.Filter(ps, IsFeatured)
  }

  function Listed(ps: seq<Project>): seq<Project>
  {
    ListSections.Filter(ps, IsListed)
  }

  function FeaturedSection(style: ProjectStyle, ps: seq<Project>): string
  {
    var top := Featured(ps);
    if |top| == 0 then "" else FeaturedHeading + RenderBlocks(style, top)
  }

  /** The `featuredProjects` renderer. */
  function RenderFeaturedProjects(d: FormData): string
  {
    FeaturedSection(d.projectStyle, d.projects)
  }

  /** A named project is featured exactly when it is a top project and listed
      under a category exactly when it is not; an unnamed project is in
      neither. */
  lemma ProjectPartition(ps: seq<Project>, p: Project)
    requires p in ps
    ensures p in Featured(ps) <==> p.name != "" && p.isTopProject
    ensures p in Listed(ps) <==> p.name != "" && !p.isTopProject
    ensures !(p in Featured(ps) && p in Listed(ps))
  {
  }

  /** The featured section is there exactly when a top project has a name,
      and then starts with its heading. */
  lemma FeaturedSectionEmpty(style: ProjectStyle, ps: seq<Project>)
    ensures FeaturedSection(style, ps) == "" <==> forall p | p in ps :: !IsFeatured(p)
    ensures FeaturedSection(style, ps) != "" ==> JsString.StartsWith(FeaturedSection(style, ps), FeaturedHeading)
  {
    var top := Featured(ps);
    if |top| > 0 {
      assert top[0] in top;
      JsString.PrefixConcat(FeaturedHeading, RenderBlocks(style, top));
    } else {
      FilterNone(ps, IsFeatured);
    }
  }

  /** Every featured project is shown, in the chosen style. */
  lemma FeaturedShown(style: ProjectStyle, ps: seq<Project>, p: Project)
    requires p in ps && IsFeatured(p)
    ensures JsString.Contains(FeaturedSection(style, ps), RenderProject(style, p))
    ensures JsString.Contains(FeaturedSection(style, ps), ProjectTitle(p))
  {
    var top := Featured(ps);
    BlocksShow(style, top, p);
    JsString.ContainsConcat(FeaturedHeading, RenderBlocks(style, top), RenderProject(style, p));
    JsString.ContainsConcat(FeaturedHeading, RenderBlocks(style, top), ProjectTitle(p));
  }

  // ---------------------------------------------------------------------
  // All projects, by category
  // ---------------------------------------------------------------------

  /** `projectsByCategory[category]`: the listed projects of one category,
      in their order. */
  function Grouped(ps: seq<Project>, category: string): seq<Project>
  {
    ListSections.Filter(ps, p => IsListed(p) && p.category == category)
  }

  /** What one category adds: its heading and its projects, or nothing. */
  function CategoryBlock(style: ProjectStyle, ps: seq<Project>, category: string): string
  {
    var group := Grouped(ps, category);
    if |group| > 0 then "#### " + category + "\n" + RenderBlocks(style, group) + "\n" else ""
  }

  /** The blocks of the given categories, in order. */
  function ProjectsBody(style: ProjectStyle, ps: seq<Project>, categories: seq<string>): string
  {
    if |categories| == 0 then ""
    else ProjectsBody(style, ps, categories[..|categories| - 1]) + CategoryBlock(style, ps, categories[|categories| - 1])
  }

  /** `Object.keys(projectsByCategory).length !== 0`: the object has a key
      for the category of every listed project, known or not. */
  predicate AnyListed(ps: seq<Project>)
  {
    exists p | p in ps :: IsListed(p)
  }

  function ProjectsSection(style: ProjectStyle, ps: seq<Project>): string
  {
    if !AnyListed(ps) then "" else JsString.Trim(AllProjectsHeading + ProjectsBody(style, ps, ProjectCategories))
  }

  /** The `projects` renderer. */
  function RenderProjects(d: FormData): string
  {
    ProjectsSection(d.projectStyle, d.projects)
  }

  lemma AppendBlock(before: string, category: string, blocks: string)
    ensures before + "#### " + category + "\n" + blocks + "\n" == before + ("#### " + category + "\n" + blocks + "\n")
  {
  }

  lemma Assoc(a: string, b: string, c: string)
    ensures a + (b + c) == (a + b) + c
  {
  }

  /** The `for … of PROJECT_CATEGORIES` loop: appends each category's block
      to `content`. */
  method AppendCategories(style: ProjectStyle, ps: seq<Project>, content: string, categories: seq<string>)
    returns (r: string)
    ensures r == content + ProjectsBody(style, ps, categories)
  {
    r := content;
    for i := 0 to |categories|
      invariant r == content + ProjectsBody(style, ps, categories[..i])
    {
      var category := categories[i];
      var group := Grouped(ps, category);
      BodyStep(style, ps, categories, i);
      ghost var body := ProjectsBody(style, ps, categories[..i]);
      Assoc(content, body, CategoryBlock(style, ps, category));
      if |group| > 0 {
        ghost var before := r;
        var blocks := RenderBlocks(style, group);
        r := r + "#### " + category + "\n";
        r := r + blocks;
        r := r + "\n";
        AppendBlock(before, category, blocks);
      } else {
        assert body + "" == body;
      }
    }
    assert categories[..|categories|] == categories;
  }

  /** The projects renderer: nothing without listed projects, otherwise the
      heading and the categories' blocks, trimmed. */
  method BuildProjects(d: FormData) returns (r: string)
    ensures r == RenderProjects(d)
  {
    if !AnyListed(d.projects) {
      return "";
    }
    var content := AppendCategories(d.projectStyle, d.projects, AllProjectsHeading, ProjectCategories);
    r := JsString.Trim(content);
  }

  lemma BodyStep(style: ProjectStyle, ps: seq<Project>, categories: seq<string>, i: nat)
    requires i < |categories|
    ensures ProjectsBody(style, ps, categories[..i + 1])
      == ProjectsBody(style, ps, categories[..i]) + CategoryBlock(style, ps, categories[i])
  {
    assert categories[..i + 1][..i] == categories[..i];
  }

  /** A project listed under one of the given categories is shown. */
  lemma BodyShows(style: ProjectStyle, ps: seq<Project>, categories: seq<string>, p: Project)
    requires p in ps && IsListed(p) && p.category in categories
    ensures JsString.Contains(ProjectsBody(style, ps, categories), ProjectTitle(p))
  {
    GroupShows(style, ps, p);
    var k :| 0 <= k < |categories| && categories[k] == p.category;
    BodyShowsBlock(style, ps, categories, k);
    JsString.ContainsTrans(ProjectsBody(style, ps, categories), CategoryBlock(style, ps, p.category), ProjectTitle(p));
  }

  lemma {:induction false} BodyShowsBlock(style: ProjectStyle, ps: seq<Project>, categories: seq<string>, k: nat)
    requires k < |categories|
    ensures JsString.Contains(ProjectsBody(style, ps, categories), CategoryBlock(style, ps, categories[k]))
  {
    var n := |categories| - 1;
    var front := categories[..n];
    if k == n {
      JsString.ContainsEnd(ProjectsBody(style, ps, front), CategoryBlock(style, ps, categories[n]));
    } else {
      assert front[k] == categories[k];
      BodyShowsBlock(style, ps, front, k);
      JsString.ContainsConcat(ProjectsBody(style, ps, front), CategoryBlock(style, ps, categories[n]),
        CategoryBlock(style, ps, categories[k]));
    }
  }

  lemma {:induction false} BodyEmpty(style: ProjectStyle, ps: seq<Project>, categories: seq<string>)
    requires forall k | 0 <= k < |categories| :: Grouped(ps, categories[k]) == []
    ensures ProjectsBody(style, ps, categories) == ""
  {
    if |categories| > 0 {
      var n := |categories| - 1;
      assert forall k | 0 <= k < n :: categories[..n][k] == categories[k];
      BodyEmpty(style, ps, categories[..n]);
    }
  }

  /** The category lists are there exactly when some project is listed. */
  lemma ProjectsSectionEmpty(style: ProjectStyle, ps: seq<Project>)
    ensures ProjectsSection(style, ps) == "" <==> !AnyListed(ps)
  {
    if AnyListed(ps) {
      var s := AllProjectsHeading + ProjectsBody(style, ps, ProjectCategories);
      assert s[0] == '#';
      assert !JsString.AllWhite(s);
    }
  }

  /** A category's block shows each of its projects. */
  lemma GroupShows(style: ProjectStyle, ps: seq<Project>, p: Project)
    requires p in ps && IsListed(p)
    ensures JsString.Contains(CategoryBlock(style, ps, p.category), ProjectTitle(p))
  {
    var group := Grouped(ps, p.category);
    assert p in group;
    var blocks := RenderBlocks(style, group);
    BlocksShow(style, group, p);
    var front := "#### " + p.category + "\n";
    JsString.ContainsConcat(front, blocks, ProjectTitle(p));
    JsString.ContainsConcat(front + blocks, "\n", ProjectTitle(p));
  }

  /** A listed project of one of the known categories is shown. */
  lemma ListedProjectShown(style: ProjectStyle, ps: seq<Project>, p: Project)
    requires p in ps && IsListed(p) && p.category in ProjectCategories
    ensures JsString.Contains(ProjectsSection(style, ps), ProjectTitle(p))
  {
    var t := ProjectTitle(p);
    var body := ProjectsBody(style, ps, ProjectCategories);
    BodyShows(style, ps, ProjectCategories, p);
    JsString.ContainsConcat(AllProjectsHeading, body, t);
    TitleFramed(p);
    JsString.ContainsTrim(AllProjectsHeading + body, t);
    assert AnyListed(ps);
  }

  /** A title starts and ends with `*`, never with white space. */
  lemma TitleFramed(p: Project)
    ensures var t := ProjectTitle(p); t != "" && !JsString.IsWhite(t[0]) && !JsString.IsWhite(t[|t| - 1])
  {
    var t := ProjectTitle(p);
    assert t[0] == '*' && t[|t| - 1] == '*';
  }

  /** When every listed project has a category outside the known ones, the
      section is the heading alone. */
  lemma UnknownCategoriesLeaveHeading(style: ProjectStyle, ps: seq<Project>)
    requires AnyListed(ps)
    requires forall p | p in ps && IsListed(p) :: p.category !in ProjectCategories
    ensures ProjectsSection(style, ps) == JsString.Trim(AllProjectsHeading)
  {
    forall k | 0 <= k < |ProjectCategories| ensures Grouped(ps, ProjectCategories[k]) == [] {
      var c := ProjectCategories[k];
      FilterNone(ps, p => IsListed(p) && p.category == c);
    }
    BodyEmpty(style, ps, ProjectCategories);
    assert AllProjectsHeading + "" == AllProjectsHeading;
  }

  /** The `featuredProjects` renderer is empty exactly when no top project
      has a name, and shows every named top project's title. */
  lemma FeaturedProjectsRendered(d: FormData)
    ensures RenderFeaturedProjects(d) == "" <==> forall p | p in d.projects :: !IsFeatured(p)
    ensures forall p | p in d.projects && IsFeatured(p) :: JsString.Contains(RenderFeaturedProjects(d), ProjectTitle(p))
  {
    FeaturedSectionEmpty(d.projectStyle, d.projects);
    forall p | p in d.projects && IsFeatured(p)
      ensures JsString.Contains(RenderFeaturedProjects(d), ProjectTitle(p))
    {
      FeaturedShown(d.projectStyle, d.projects, p);
    }
  }

  /** The `projects` renderer is empty exactly when no other project has a
      name, and shows the title of each such project of a known category. */
  lemma ProjectsRendered(d: FormData)
    ensures RenderProjects(d) == "" <==> !AnyListed(d.projects)
    ensures forall p | p in d.projects && IsListed(p) && p.category in ProjectCategories ::
      JsString.Contains(RenderProjects(d), ProjectTitle(p))
  {
    ProjectsSectionEmpty(d.projectStyle, d.projects);
    forall p | p in d.projects && IsListed(p) && p.category in ProjectCategories
      ensures JsString.Contains(RenderProjects(d), ProjectTitle(p))
    {
      ListedProjectShown(d.projectStyle, d.projects, p);
    }
  }
}
