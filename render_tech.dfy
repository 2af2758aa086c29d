/** The `techStack` renderer: for every category of the form's tech stack
    that has skills, a heading and the skills in the chosen `SkillStyle`. */
module TechSection {
  import opened Wrappers
  import opened Types
  import opened Constants
  import JsString

  const TechHeading := "### " + "\U{00F0}\U{0178}\U{203A}\U{00A0}\U{00EF}\U{00B8} My Tech Stack\n\n"

  // ---------------------------------------------------------------------
  // Catalog lookups
  // ---------------------------------------------------------------------

  /** `new Map(allSkillsData.map(s => [s.name, s])).get(name)`: building the
      map keeps the last entry of each name. */
  function FindSkill(catalog: seq<Skill>, name: string): (r: Option<Skill>)
    ensures r.None? <==> forall s | s in catalog :: s.name != name
    ensures r.Some? ==> exists i | 0 <= i < |catalog| ::
      (catalog[i] == r.value && r.value.name == name && forall j | i < j < |catalog| :: catalog[j].name != name)
  {
    if |catalog| == 0 then None
    else
      var n := |catalog| - 1;
      if catalog[n].name == name then Some(catalog[n])
      else
        var r := FindSkill(catalog[..n], name);
        assert forall j | 0 <= j < n :: catalog[..n][j] == catalog[j];
        assert forall s | s in catalog :: s in catalog[..n] || s == catalog[n];
        r
  }

  /** The catalog entry's icon name, when the skill has one: `skillInfo?.deviconName`. */
  function Devicon(info: Option<Skill>): string
  {
    if info.Some? then info.value.deviconName else ""
  }

  // ---------------------------------------------------------------------
  // One skill, per style
  // ---------------------------------------------------------------------

  /** `skillStyle.replace('badge-', '')`, with `badge` becoming `for-the-badge`. */
  function ShieldStyle(style: SkillStyle): string
  {
    match style
    case BadgePlastic => "plastic"
    case BadgeFlat => "flat"
    case BadgeFlatSquare => "flat-square"
    case BadgeSocial => "social"
    case _ => "for-the-badge"
  }

  /** `skillStyle.startsWith('badge')` */
  predicate IsBadgeStyle(style: SkillStyle)
  {
    style.Badge? || style.BadgePlastic? || style.BadgeFlat? || style.BadgeFlatSquare? || style.BadgeSocial?
  }

  /** The styles that write plain text. */
  predicate IsTextStyle(style: SkillStyle)
  {
    style.ListBullet? || style.ListComma? || style.ListDot? || style.ListPipe? || style.ListNewline?
  }

  /** The badge styles are exactly the ones whose name starts with `badge`. */
  lemma BadgeStyleNames(style: SkillStyle)
    ensures IsBadgeStyle(style) <==> JsString.StartsWith(style.Name(), "badge")
  {
    if IsBadgeStyle(style) {
      assert style.Name()[..5] == "badge";
    } else if style.Icon? || style.IconGrid? || style.IconText? {
      assert style.Name()[0] == 'i';
    } else {
      assert style.Name()[0] != 'b';
    }
  }

  /** The shield style is the rest of the name after `badge-`, and
      `for-the-badge` for the plain badge. */
  lemma ShieldStyleName(style: SkillStyle)
    requires IsBadgeStyle(style)
    ensures style == Badge ==> ShieldStyle(style) == "for-the-badge"
    ensures style != Badge ==> JsString.StartsWith(style.Name(), "badge-") && ShieldStyle(style) == style.Name()[6..]
  {
  }

  /** The shields.io logo: the catalog's icon name without its variant, or
      the skill's name in lower case with dashes for spaces. */
  function BadgeLogo(info: Option<Skill>, name: string): string
  {
    if info.Some? then JsString.StripDeviconVariant(info.value.deviconName)
    else JsString.ReplaceSpaces(JsString.ToLower(name), '-')
  }

  /** A shields.io badge; `enc` stands for `encodeURIComponent`. */
  function BadgeItem(enc: string -> string, color: string, shield: string, name: string, logo: string): (r: string)
    ensures JsString.Contains(r, name)
  {
    var front := "  <a href=\"#\"><i" + "mg src=\"https://" + "img.shields.io/b" + "adge/" + enc(name) + "-" + color
      + "?style=" + shield + "&logo=" + logo + "&logoColor=white" + "\" alt=\"";
    var tail := "\"/></a>\n";
    JsString.ContainsInfix(front, name, tail);
    front + name + tail
  }

  /** A devicon image, or a box with the name when the catalog has no icon. */
  function IconItem(devicon: string, name: string): (r: string)
    ensures JsString.Contains(r, name)
  {
    if devicon == "" then
      var front := "  <a href=\"#\" st" + "yle=\"display: in" + "line-block; text" + "-align: center; "
        + "width: 52px; ver" + "tical-align: top" + "; margin: 4px; t" + "ext-decoration: " + "none;\">\n"
        + "    <div style=\"" + "height: 40px; wi" + "dth: 52px; displ" + "ay: flex; align-"
        + "items: center; j" + "ustify-content: " + "center; text-ali" + "gn: center; font"
        + "-size: 11px; col" + "or: #c9d1d9; wor" + "d-break: break-a" + "ll; line-height:" + " 1.2;\">";
      var tail := "</div>\n" + "  </a>\n";
      JsString.ContainsInfix(front, name, tail);
      front + name + tail
    else
      var front := "  <a href=\"#\"><i" + "mg src=\"https://" + "cdn.jsdelivr.net" + "/gh/devicons/dev" + "icon/icons/"
        + JsString.BeforeFirst(devicon, '-') + "/" + devicon + ".svg\" height=\"40" + "\" width=\"52\" alt"
        + "=\"";
      var tail := " icon\"/></a>\n";
      JsString.ContainsInfix(front, name, tail);
      front + name + tail
  }

  function StarIcon(devicon: string, name: string): string
  {
    if devicon != "" then
      "    <img src=\"ht" + "tps://cdn.jsdeli" + "vr.net/gh/devico" + "ns/devicon/icons" + "/"
      + JsString.BeforeFirst(devicon, '-') + "/" + devicon + ".svg\" height=\"40" + "\" width=\"40\" alt"
      + "=\"" + name + " icon\"/>\n"
    else
      "    <div style=\"" + "height: 40px; wi" + "dth: 40px; displ" + "ay: flex; align-" + "items: center; j"
      + "ustify-content: " + "center; text-ali" + "gn: center; font" + "-size: 11px; col" + "or: #c9d1d9; wor"
      + "d-break: break-a" + "ll; line-height:" + " 1.2;\">" + name + "</div>\n"
  }

  /** A cell with the icon and the name below it. */
  function StarItem(devicon: string, name: string): (r: string)
    ensures JsString.Contains(r, name)
  {
    var open :=
      "  <a href=\"#\" st" + "yle=\"display: in" + "line-block; text" + "-align: center; "
      + "width: 90px; ver" + "tical-align: top" + "; margin: 10px; " + "text-decoration:" + " none;\">\n";
    var front := "    <br><sub sty" + "le=\"font-size: 1" + "2px; color: #c9d" + "1d9;\">";
    var tail := "</sub>\n" + "  </a>\n";
    JsString.ContainsInfix(front, name, tail);
    var sub := front + name + tail;
    JsString.ContainsConcat(open + StarIcon(devicon, name), sub, name);
    open + StarIcon(devicon, name) + sub
  }

  function IconTextItem(devicon: string, name: string): (r: string)
    ensures JsString.Contains(r, name)
  {
    if devicon != "" then
      var front := "- <img src=\"http" + "s://cdn.jsdelivr" + ".net/gh/devicons" + "/devicon/icons/"
        + JsString.BeforeFirst(devicon, '-') + "/" + devicon + ".svg\" height=\"20" + "\" width=\"20\" alt"
        + "=\"" + name + " icon\" style=\"ve" + "rtical-align: mi" + "ddle; margin-rig" + "ht: 5px;\"/> ";
      var tail := "";
      JsString.ContainsInfix(front, name, tail);
      front + name + tail
    else
      JsString.ContainsEnd("- ", name);
      "- " + name
  }

  function TableItem(devicon: string, name: string): (r: string)
    ensures JsString.Contains(r, name)
  {
    if devicon != "" then
      var front := "| <img src=\"http" + "s://cdn.jsdelivr" + ".net/gh/devicons" + "/devicon/icons/"
        + JsString.BeforeFirst(devicon, '-') + "/" + devicon + ".svg\" height=\"25" + "\" width=\"25\" alt"
        + "=\"" + name + " icon\" /> | ";
      var tail := " |";
      JsString.ContainsInfix(front, name, tail);
      front + name + tail
    else
      JsString.ContainsInfix("| | ", name, " |");
      "| | " + name + " |"
  }

  function PillItem(enc: string -> string, color: string, name: string): (r: string)
    ensures JsString.Contains(r, name)
  {
    var front := "  <a href=\"#\"><i" + "mg src=\"https://" + "img.shields.io/b" + "adge/" + enc(name) + "-" + color
      + "?style=flat&logo" + "Color=white\" alt" + "=\"";
    var tail := "\"/></a>\n";
    JsString.ContainsInfix(front, name, tail);
    front + name + tail
  }

  const DotSeparator := " &nbsp;\U{00E2}\U{20AC}\U{00A2}&nbsp; "

  /** What one skill becomes in the given style. */
  function Item(style: SkillStyle, enc: string -> string, color: string, catalog: seq<Skill>, name: string): string
  {
    var info := FindSkill(catalog, name);
    match style
    case Icon => IconItem(Devicon(info), name)
    case IconGrid => IconItem(Devicon(info), name)
    case Star => StarItem(Devicon(info), name)
    case IconText => IconTextItem(Devicon(info), name)
    case Table => TableItem(Devicon(info), name)
    case Pills => PillItem(enc, color, name)
    case ListBullet => "- " + name
    case ListComma => name
    case ListDot => name
    case ListPipe => name
    case ListNewline => name
    case _ => BadgeItem(enc, color, ShieldStyle(style), name, BadgeLogo(info, name))
  }

  /** Every style shows the skill's name. */
  lemma ItemShowsName(style: SkillStyle, enc: string -> string, color: string, catalog: seq<Skill>, name: string)
    ensures JsString.Contains(Item(style, enc, color, catalog, name), name)
  {
    if style.ListBullet? {
      JsString.ContainsEnd("- ", name);
    } else if IsTextStyle(style) {
      JsString.ContainsSelf(name);
    }
  }

  // ---------------------------------------------------------------------
  // One category
  // ---------------------------------------------------------------------

  /** What comes before the items. */
  function Opening(style: SkillStyle): string
  {
    match style
    case Star => "<p align=\"center\">\n"
    case IconText => ""
    case Table => "| Icon | Name |\n" + "|:---:|:---:|\n"
    case ListBullet => ""
    case ListComma => ""
    case ListDot => ""
    case ListPipe => ""
    case ListNewline => ""
    case _ => "<p align=\"left\">\n"
  }

  /** What the items are joined with. */
  function Separator(style: SkillStyle): string
  {
    match style
    case IconText => "\n"
    case Table => "\n"
    case ListBullet => "\n"
    case ListComma => ", "
    case ListDot => DotSeparator
    case ListPipe => " | "
    case ListNewline => "<br>"
    case _ => ""
  }

  /** What comes after the items. */
  function Closing(style: SkillStyle): string
  {
    if style.Star? || IsBadgeStyle(style) || style.Icon? || style.IconGrid? || style.Pills? then "</p>\n\n" else "\n\n"
  }

  /** A category's skills in the given style: the opening, the items and the
      closing. */
  function Markup(style: SkillStyle, enc: string -> string, color: string, catalog: seq<Skill>, skills: seq<string>): string
  {
    var items := seq(|skills|, i requires 0 <= i < |skills| => Item(style, enc, color, catalog, skills[i]));
    Opening(style) + JsString.Join(items, Separator(style)) + Closing(style)
  }

  /** What one category of the form's tech stack adds: nothing when it has
      no skills. */
  function CategoryBlock(style: SkillStyle, enc: string -> string, color: string, catalog: seq<CatalogCategory>,
    entry: CategorySkills): string
  {
    if |entry.skills| == 0 then ""
    else "#### " + entry.category + "\n" + Markup(style, enc, color, CatalogSkills(catalog, entry.category), entry.skills)
  }

  /** The blocks of the given categories, in the tech stack's key order. */
  function StackBody(style: SkillStyle, enc: string -> string, color: string, catalog: seq<CatalogCategory>,
    ts: TechStack): string
  {
    if |ts| == 0 then ""
    else StackBody(style, enc, color, catalog, ts[..|ts| - 1]) + CategoryBlock(style, enc, color, catalog, ts[|ts| - 1])
  }

  /** `Object.values(techStack).some(categorySkills => categorySkills.length > 0)` */
  predicate HasSkills(ts: TechStack)
  {
    exists i | 0 <= i < |ts| :: |ts[i].skills| > 0
  }

  function StackSection(style: SkillStyle, enc: string -> string, color: string, catalog: seq<CatalogCategory>,
    ts: TechStack): string
  {
    if !HasSkills(ts) then "" else JsString.Trim(TechHeading + StackBody(style, enc, color, catalog, ts))
  }

  /** The `techStack` renderer, looking skills up in `TECH_STACK`. */
  function RenderTechStack(d: FormData, enc: string -> string): string
  {
    StackSection(d.skillStyle, enc, d.badgeColor, TechCatalog, d.techStack)
  }

  lemma Assoc(a: string, b: string, c: string)
    ensures a + (b + c) == (a + b) + c
  {
  }

  lemma AppendBlock(before: string, category: string, markup: string)
    ensures before + "#### " + category + "\n" + markup == before + ("#### " + category + "\n" + markup)
  {
  }

  lemma BodyStep(style: SkillStyle, enc: string -> string, color: string, catalog: seq<CatalogCategory>,
    ts: TechStack, i: nat)
    requires i < |ts|
    ensures StackBody(style, enc, color, catalog, ts[..i + 1])
      == StackBody(style, enc, color, catalog, ts[..i]) + CategoryBlock(style, enc, color, catalog, ts[i])
  {
    assert ts[..i + 1][..i] == ts[..i];
  }

  /** The `for (const category in techStack)` loop, appending to `content`. */
  method AppendStack(style: SkillStyle, enc: string -> string, color: string, catalog: seq<CatalogCategory>,
    content: string, ts: TechStack) returns (r: string)
    ensures r == content + StackBody(style, enc, color, catalog, ts)
  {
    r := content;
    for i := 0 to |ts|
      invariant r == content + StackBody(style, enc, color, catalog, ts[..i])
    {
      BodyStep(style, enc, color, catalog, ts, i);
      ghost var body := StackBody(style, enc, color, catalog, ts[..i]);
      Assoc(content, body, CategoryBlock(style, enc, color, catalog, ts[i]));
      var skills := ts[i].skills;
      if |skills| == 0 {
        assert body + "" == body;
        continue;
      }
      ghost var before := r;
      r := r + "#### " + ts[i].category + "\n";
      var markup := Markup(style, enc, color, CatalogSkills(catalog, ts[i].category), skills);
      r := r + markup;
      AppendBlock(before, ts[i].category, markup);
    }
    assert ts[..|ts|] == ts;
  }

  method BuildTechStack(d: FormData, enc: string -> string) returns (r: string)
    ensures r == RenderTechStack(d, enc)
  {
    if !HasSkills(d.techStack) {
      return "";
    }
    var markdown := AppendStack(d.skillStyle, enc, d.badgeColor, TechCatalog, TechHeading, d.techStack);
    r := JsString.Trim(markdown);
  }

  // ---------------------------------------------------------------------
  // Properties
  // ---------------------------------------------------------------------

  lemma {:induction false} BodyEmpty(style: SkillStyle, enc: string -> string, color: string,
    catalog: seq<CatalogCategory>, ts: TechStack)
    requires !HasSkills(ts)
    ensures StackBody(style, enc, color, catalog, ts) == ""
  {
    if |ts| > 0 {
      var n := |ts| - 1;
      assert forall i | 0 <= i < n :: ts[..n][i] == ts[i];
      BodyEmpty(style, enc, color, catalog, ts[..n]);
    }
  }

  /** The section is there exactly when some category has a skill. */
  lemma StackSectionEmpty(style: SkillStyle, enc: string -> string, color: string,
    catalog: seq<CatalogCategory>, ts: TechStack)
    ensures StackSection(style, enc, color, catalog, ts) == "" <==> !HasSkills(ts)
  {
    if HasSkills(ts) {
      var s := TechHeading + StackBody(style, enc, color, catalog, ts);
      assert s[0] == '#';
      assert !JsString.AllWhite(s);
    }
  }

  /** A category's markup shows each of its skills. */
  lemma MarkupShows(style: SkillStyle, enc: string -> string, color: string, catalog: seq<Skill>,
    skills: seq<string>, k: nat)
    requires k < |skills|
    ensures JsString.Contains(Markup(style, enc, color, catalog, skills), skills[k])
  {
    var items := seq(|skills|, i requires 0 <= i < |skills| => Item(style, enc, color, catalog, skills[i]));
    var joined := JsString.Join(items, Separator(style));
    JsString.JoinContains(items, Separator(style), k);
    ItemShowsName(style, enc, color, catalog, skills[k]);
    JsString.ContainsTrans(joined, items[k], skills[k]);
    JsString.ContainsConcat(Opening(style), joined, skills[k]);
    JsString.ContainsConcat(Opening(style) + joined, Closing(style), skills[k]);
  }

  lemma {:induction false} BodyShowsBlock(style: SkillStyle, enc: string -> string, color: string,
    catalog: seq<CatalogCategory>, ts: TechStack, k: nat)
    requires k < |ts|
    ensures JsString.Contains(StackBody(style, enc, color, catalog, ts), CategoryBlock(style, enc, color, catalog, ts[k]))
  {
    var n := |ts| - 1;
    var front := ts[..n];
    if k == n {
      JsString.ContainsEnd(StackBody(style, enc, color, catalog, front), CategoryBlock(style, enc, color, catalog, ts[n]));
    } else {
      assert front[k] == ts[k];
      BodyShowsBlock(style, enc, color, catalog, front, k);
      JsString.ContainsConcat(StackBody(style, enc, color, catalog, front), CategoryBlock(style, enc, color, catalog, ts[n]),
        CategoryBlock(style, enc, color, catalog, ts[k]));
    }
  }

  lemma BodyShowsSkill(style: SkillStyle, enc: string -> string, color: string, catalog: seq<CatalogCategory>,
    ts: TechStack, k: nat, j: nat)
    requires k < |ts| && j < |ts[k].skills|
    ensures JsString.Contains(StackBody(style, enc, color, catalog, ts), ts[k].skills[j])
  {
    var name := ts[k].skills[j];
    var entry := ts[k];
    var markup := Markup(style, enc, color, CatalogSkills(catalog, entry.category), entry.skills);
    MarkupShows(style, enc, color, CatalogSkills(catalog, entry.category), entry.skills, j);
    JsString.ContainsConcat("#### " + entry.category + "\n", markup, name);
    BodyShowsBlock(style, enc, color, catalog, ts, k);
    JsString.ContainsTrans(StackBody(style, enc, color, catalog, ts), CategoryBlock(style, enc, color, catalog, entry), name);
  }

  /** What the body shows and trimming cannot cut into, the section shows. */
  lemma HeadedShows(body: string, name: string)
    requires JsString.Contains(body, name)
    requires name != "" && !JsString.IsWhite(name[0]) && !JsString.IsWhite(name[|name| - 1])
    ensures JsString.Contains(JsString.Trim(TechHeading + body), name)
  {
    JsString.ContainsConcat(TechHeading, body, name);
    JsString.ContainsTrim(TechHeading + body, name);
  }

  lemma SectionShows(style: SkillStyle, enc: string -> string, color: string, catalog: seq<CatalogCategory>,
    ts: TechStack, name: string)
    requires HasSkills(ts) && JsString.Contains(StackBody(style, enc, color, catalog, ts), name)
    requires name != "" && !JsString.IsWhite(name[0]) && !JsString.IsWhite(name[|name| - 1])
    ensures JsString.Contains(StackSection(style, enc, color, catalog, ts), name)
  {
    HeadedShows(StackBody(style, enc, color, catalog, ts), name);
  }

  /** Every selected skill is shown, whatever the style, as long as trimming
      the section cannot cut into its name. */
  lemma SkillShown(style: SkillStyle, enc: string -> string, color: string, catalog: seq<CatalogCategory>,
    ts: TechStack, k: nat, j: nat)
    requires k < |ts| && j < |ts[k].skills|
    requires ts[k].skills[j] != "" && !JsString.IsWhite(ts[k].skills[j][0])
    requires !JsString.IsWhite(ts[k].skills[j][|ts[k].skills[j]| - 1])
    ensures JsString.Contains(StackSection(style, enc, color, catalog, ts), ts[k].skills[j])
  {
    BodyShowsSkill(style, enc, color, catalog, ts, k, j);
    assert HasSkills(ts) by { assert |ts[k].skills| > 0; }
    SectionShows(style, enc, color, catalog, ts, ts[k].skills[j]);
  }

  // ---------------------------------------------------------------------
  // The text styles write no images
  // ---------------------------------------------------------------------

  /** The only markup in `s` is `<br>` line breaks. */
  predicate BreaksOnly(s: string)
  {
    forall i | 0 <= i < |s| && s[i] == '<' :: i + 4 <= |s| && s[i..i + 4] == "<br>"
  }

  lemma BreaksOnlyConcat(a: string, b: string)
    requires BreaksOnly(a) && BreaksOnly(b)
    ensures BreaksOnly(a + b)
  {
    var s := a + b;
    forall i | 0 <= i < |s| && s[i] == '<' ensures i + 4 <= |s| && s[i..i + 4] == "<br>" {
      if i < |a| {
        assert a[i] == '<';
        assert s[i..i + 4] == a[i..i + 4];
      } else {
        assert b[i - |a|] == '<';
        assert s[i..i + 4] == b[i - |a|..i - |a| + 4];
      }
    }
  }

  lemma {:induction false} BreaksOnlyJoin(parts: seq<string>, sep: string)
    requires BreaksOnly(sep) && forall i | 0 <= i < |parts| :: BreaksOnly(parts[i])
    ensures BreaksOnly(JsString.Join(parts, sep))
  {
    if |parts| > 1 {
      BreaksOnlyJoin(parts[1..], sep);
      BreaksOnlyConcat(parts[0], sep);
      BreaksOnlyConcat(parts[0] + sep, JsString.Join(parts[1..], sep));
    }
  }

  /** Cutting white space off the end cannot cut a `<br>`: it ends with `>`. */
  lemma BreaksOnlyWhiteEnd(e: string, w: string)
    requires BreaksOnly(e + w) && JsString.AllWhite(w)
    ensures BreaksOnly(e)
  {
    var s := e + w;
    forall i | 0 <= i < |e| && e[i] == '<' ensures i + 4 <= |e| && e[i..i + 4] == "<br>" {
      assert s[i] == '<';
      assert s[i + 3] == '>';
      assert e[i..i + 4] == s[i..i + 4];
    }
  }

  lemma BreaksOnlySuffix(s: string, j: nat)
    requires BreaksOnly(s) && j <= |s|
    ensures BreaksOnly(s[j..])
  {
    var r := s[j..];
    forall i | 0 <= i < |r| && r[i] == '<' ensures i + 4 <= |r| && r[i..i + 4] == "<br>" {
      assert s[j + i] == '<';
      assert r[i..i + 4] == s[j + i..j + i + 4];
    }
  }

  lemma BreaksOnlyTrim(s: string)
    requires BreaksOnly(s)
    ensures BreaksOnly(JsString.Trim(s))
  {
    var e := JsString.TrimEnd(s);
    assert s == e + s[|e|..];
    BreaksOnlyWhiteEnd(e, s[|e|..]);
    var r := JsString.TrimStart(e);
    BreaksOnlySuffix(e, |e| - |r|);
  }

  lemma NoLtBreaksOnly(s: string)
    requires '<' !in s
    ensures BreaksOnly(s)
  {
  }

  /** Text without `<img`: every `<` starts a `<br>`. */
  lemma BreaksOnlyNoImage(s: string)
    requires BreaksOnly(s)
    ensures !JsString.Contains(s, "<img")
  {
    forall i | 0 <= i <= |s| ensures !JsString.StartsWith(s[i..], "<img") {
      if i + 4 <= |s| && s[i] == '<' {
        assert s[i..][1] == s[i + 1] == 'b';
      }
    }
  }

  lemma TextItemBreaksOnly(style: SkillStyle, enc: string -> string, color: string, catalog: seq<Skill>, name: string)
    requires IsTextStyle(style) && '<' !in name
    ensures BreaksOnly(Item(style, enc, color, catalog, name))
  {
    if style.ListBullet? {
      assert '<' !in "- " + name;
    }
  }

  lemma TextMarkupBreaksOnly(style: SkillStyle, enc: string -> string, color: string, catalog: seq<Skill>,
    skills: seq<string>)
    requires IsTextStyle(style) && forall j | 0 <= j < |skills| :: '<' !in skills[j]
    ensures BreaksOnly(Markup(style, enc, color, catalog, skills))
  {
    var items := seq(|skills|, i requires 0 <= i < |skills| => Item(style, enc, color, catalog, skills[i]));
    forall i | 0 <= i < |items| ensures BreaksOnly(items[i]) {
      TextItemBreaksOnly(style, enc, color, catalog, skills[i]);
    }
    TextSeparatorBreaksOnly(style);
    BreaksOnlyJoin(items, Separator(style));
    var joined := JsString.Join(items, Separator(style));
    assert Opening(style) + joined + Closing(style) == joined + "\n\n";
    NoLtBreaksOnly("\n\n");
    BreaksOnlyConcat(joined, "\n\n");
  }

  /** The text styles join their items with plain text or `<br>`. */
  lemma TextSeparatorBreaksOnly(style: SkillStyle)
    requires IsTextStyle(style)
    ensures BreaksOnly(Separator(style))
  {
    if style.ListNewline? {
      assert "<br>"[0..4] == "<br>";
    } else {
      assert '<' !in Separator(style);
      NoLtBreaksOnly(Separator(style));
    }
  }

  lemma {:induction false} TextBodyBreaksOnly(style: SkillStyle, enc: string -> string, color: string,
    catalog: seq<CatalogCategory>, ts: TechStack)
    requires IsTextStyle(style)
    requires forall k | 0 <= k < |ts| :: '<' !in ts[k].category
    requires forall k, j | 0 <= k < |ts| && 0 <= j < |ts[k].skills| :: '<' !in ts[k].skills[j]
    ensures BreaksOnly(StackBody(style, enc, color, catalog, ts))
  {
    if |ts| > 0 {
      var n := |ts| - 1;
      assert forall k | 0 <= k < n :: ts[..n][k] == ts[k];
      TextBodyBreaksOnly(style, enc, color, catalog, ts[..n]);
      TextBlockBreaksOnly(style, enc, color, catalog, ts[n]);
      BreaksOnlyConcat(StackBody(style, enc, color, catalog, ts[..n]), CategoryBlock(style, enc, color, catalog, ts[n]));
    }
  }

  /** One category's block in a text style, of tag-free names, has no
      markup but line breaks. */
  lemma TextBlockBreaksOnly(style: SkillStyle, enc: string -> string, color: string,
    catalog: seq<CatalogCategory>, entry: CategorySkills)
    requires IsTextStyle(style) && '<' !in entry.category
    requires forall j | 0 <= j < |entry.skills| :: '<' !in entry.skills[j]
    ensures BreaksOnly(CategoryBlock(style, enc, color, catalog, entry))
  {
    if |entry.skills| > 0 {
      TextMarkupBreaksOnly(style, enc, color, CatalogSkills(catalog, entry.category), entry.skills);
      var front := "#### " + entry.category + "\n";
      assert '<' !in front;
      NoLtBreaksOnly(front);
      BreaksOnlyConcat(front, Markup(style, enc, color, CatalogSkills(catalog, entry.category), entry.skills));
    }
  }

  lemma HeadedBreaksOnly(body: string)
    requires BreaksOnly(body)
    ensures BreaksOnly(JsString.Trim(TechHeading + body))
  {
    assert '<' !in TechHeading;
    NoLtBreaksOnly(TechHeading);
    BreaksOnlyConcat(TechHeading, body);
    BreaksOnlyTrim(TechHeading + body);
  }

  /** The text styles write only the headings and the skill names with
      their separators: no images, and no markup but the `<br>` of
      `list-newline`, when the names themselves hold none. */
  lemma TextStylesWriteNoImages(style: SkillStyle, enc: string -> string, color: string,
    catalog: seq<CatalogCategory>, ts: TechStack)
    requires IsTextStyle(style)
    requires forall k | 0 <= k < |ts| :: '<' !in ts[k].category
    requires forall k, j | 0 <= k < |ts| && 0 <= j < |ts[k].skills| :: '<' !in ts[k].skills[j]
    ensures BreaksOnly(StackSection(style, enc, color, catalog, ts))
    ensures !JsString.Contains(StackSection(style, enc, color, catalog, ts), "<img")
  {
    var r := StackSection(style, enc, color, catalog, ts);
    if HasSkills(ts) {
      TextBodyBreaksOnly(style, enc, color, catalog, ts);
      HeadedBreaksOnly(StackBody(style, enc, color, catalog, ts));
    }
    BreaksOnlyNoImage(r);
  }

  /** The `techStack` renderer is empty exactly when no category has a
      skill. */
  lemma TechStackRendered(d: FormData, enc: string -> string)
    ensures RenderTechStack(d, enc) == "" <==> !HasSkills(d.techStack)
  {
    StackSectionEmpty(d.skillStyle, enc, d.badgeColor, TechCatalog, d.techStack);
  }

  /** The `techStack` renderer shows every chosen skill whose name has
      non-white ends. */
  lemma TechStackShowsSkill(d: FormData, enc: string -> string, k: nat, j: nat)
    requires k < |d.techStack| && j < |d.techStack[k].skills|
    requires d.techStack[k].skills[j] != "" && !JsString.IsWhite(d.techStack[k].skills[j][0])
    requires !JsString.IsWhite(d.techStack[k].skills[j][|d.techStack[k].skills[j]| - 1])
    ensures JsString.Contains(RenderTechStack(d, enc), d.techStack[k].skills[j])
  {
    SkillShown(d.skillStyle, enc, d.badgeColor, TechCatalog, d.techStack, k, j);
  }
}
