/** The `socials` renderer: the social links that have both a platform and
    a URL, as shields.io badges, as icons or as a list. */
module SocialSection {
  import opened Wrappers
  import opened Types
  import opened Constants
  import JsString
  import ListSections

  const ConnectHeading := "### " + "\U{00F0}\U{0178}\U{00A4} Let's Connect\n\n"

  /** `s.url && s.platform` */
  predicate IsVisible(s: SocialLink)
  {
    s.url != "" && s.platform != ""
  }

  /** `info?.color || '0D1117'` */
  function BadgeColor(info: Option<SocialPlatformInfo>): string
  {
    if info.Some? && info.value.color != "" then info.value.color else "0D1117"
  }

  /** `info?.icon || s.icon`: the catalog's icon, or the link's own. */
  function Logo(info: Option<SocialPlatformInfo>, s: SocialLink): string
  {
    if info.Some? && info.value.icon != "" then info.value.icon else s.icon
  }

  /** A shields.io badge linking to the profile; `enc` stands for
      `encodeURIComponent`. */
  function BadgeItem(enc: string -> string, platforms: seq<SocialPlatformInfo>, s: SocialLink): (r: string)
    ensures JsString.Contains(r, s.url)
  {
    var info := FindBy(platforms, SocialName, s.platform);
    var color := BadgeColor(info);
    var logo := Logo(info, s);
    var front := "[![" + s.platform + "](https://img.sh" + "ields.io/badge/" + enc(s.platform) + "-" + color
      + "?style=for-the-b" + "adge&logo=" + logo + "&logoColor=white" + ")](";
    var tail := ")";
    JsString.ContainsInfix(front, s.url, tail);
    front + s.url + tail
  }

  /** The inline style of each icon's box. */
  function IconStyles(st: SocialIconStyle): string
  {
    "display: inline-" + "block; vertical-" + "align: middle; p" + "adding: "
    + JsString.IntToString(JsString.Round(st.size, 10)) + "px; background-c" + "olor: #" + st.backgroundColor
    + "; border: " + JsString.IntToString(st.borderWidth) + "px solid #" + st.borderColor + "; border-radius:"
    + " " + JsString.IntToString(st.borderRadius) + "px; margin: 4px;" + " line-height: 0;"
  }

  /** A linked icon in a styled box. */
  function IconItem(st: SocialIconStyle, platforms: seq<SocialPlatformInfo>, s: SocialLink): (r: string)
    ensures JsString.Contains(r, s.url)
  {
    var styles := IconStyles(st);
    var logo := Logo(FindBy(platforms, SocialName, s.platform), s);
    var front := "<a href=\"";
    var tail := "\" target=\"_blank" + "\" rel=\"noopener " + "noreferrer\" styl" + "e=\"" + styles
      + "\"><img src=\"http" + "s://cdn.jsdelivr" + ".net/npm/simple-" + "icons/icons/" + logo
      + ".svg\" alt=\"" + s.platform + "\" height=\"" + JsString.IntToString(st.size) + "\" width=\""
      + JsString.IntToString(st.size) + "\" /></a>";
    JsString.ContainsInfix(front, s.url, tail);
    front + s.url + tail
  }

  /** The inline style of the icon box of each list item. */
  function ListStyles(st: SocialIconStyle): string
  {
    "display: inline-" + "block; vertical-" + "align: middle; p" + "adding: "
    + JsString.IntToString(JsString.Round(st.size, 10)) + "px; background-c" + "olor: #" + st.backgroundColor
    + "; border: " + JsString.IntToString(st.borderWidth) + "px solid #" + st.borderColor + "; border-radius:"
    + " " + JsString.IntToString(st.borderRadius) + "px; margin-right" + ": 8px; line-heig" + "ht: 0;"
  }

  /** A list item: the icon, then a link labelled with the platform. */
  function ListItem(st: SocialIconStyle, platforms: seq<SocialPlatformInfo>, s: SocialLink): (r: string)
    ensures JsString.Contains(r, s.url)
  {
    var styles := ListStyles(st);
    var logo := Logo(FindBy(platforms, SocialName, s.platform), s);
    var iconHtml :=
      "<span style=\"" + styles + "\"><img src=\"http" + "s://cdn.jsdelivr" + ".net/npm/simple-"
      + "icons/icons/" + logo + ".svg\" height=\"" + JsString.IntToString(JsString.Round(6 * st.size, 10))
      + "\" width=\"" + JsString.IntToString(JsString.Round(6 * st.size, 10)) + "\" alt=\"" + s.platform
      + "\" /></span>";
    var front := "- " + iconHtml + " [" + s.platform + "](";
    var tail := ")";
    JsString.ContainsInfix(front, s.url, tail);
    front + s.url + tail
  }

  /** The links in the chosen style. */
  function SocialContent(style: SocialStyle, enc: string -> string, st: SocialIconStyle,
    platforms: seq<SocialPlatformInfo>, visible: seq<SocialLink>): string
  {
    match style
    case SocialBadge => JsString.Join(ListSections.Map(visible, s => BadgeItem(enc, platforms, s)), " ")
    case SocialIcon =>
      "<p align=\"left\">" + JsString.Join(ListSections.Map(visible, s => IconItem(st, platforms, s)), " \n") + "</p>"
    case SocialList => JsString.Join(ListSections.Map(visible, s => ListItem(st, platforms, s)), "\n")
  }

  function SocialsSection(style: SocialStyle, enc: string -> string, st: SocialIconStyle,
    platforms: seq<SocialPlatformInfo>, socials: seq<SocialLink>): string
  {
    var visible := ListSections.Filter(socials, IsVisible);
    Headed(visible, SocialContent(style, enc, st, platforms, visible))
  }

  /** Nothing without visible links, and `content ? heading + content : ''`
      otherwise. */
  function Headed(visible: seq<SocialLink>, content: string): string
  {
    if |visible| == 0 then ""
    else if content != "" then ConnectHeading + content else ""
  }

  /** The `socials` renderer, looking platforms up in `SOCIAL_PLATFORMS`. */
  function RenderSocials(d: FormData, enc: string -> string): string
  {
    SocialsSection(d.socialStyle, enc, d.socialIconStyle, SocialPlatforms, d.socials)
  }

  /** Every visible link's URL is in the content, whatever the style. */
  lemma ContentShowsUrl(style: SocialStyle, enc: string -> string, st: SocialIconStyle,
    platforms: seq<SocialPlatformInfo>, visible: seq<SocialLink>, i: nat)
    requires i < |visible|
    ensures JsString.Contains(SocialContent(style, enc, st, platforms, visible), visible[i].url)
  {
    var s := visible[i];
    match style
    case SocialBadge =>
      var parts := ListSections.Map(visible, s => BadgeItem(enc, platforms, s));
      JsString.JoinContains(parts, " ", i);
      JsString.ContainsTrans(JsString.Join(parts, " "), parts[i], s.url);
    case SocialIcon =>
      var parts := ListSections.Map(visible, s => IconItem(st, platforms, s));
      JsString.JoinContains(parts, " \n", i);
      JsString.ContainsTrans(JsString.Join(parts, " \n"), parts[i], s.url);
      JsString.ContainsInfix("<p align=\"left\">", JsString.Join(parts, " \n"), "</p>");
      JsString.ContainsTrans(SocialContent(style, enc, st, platforms, visible), JsString.Join(parts, " \n"), s.url);
    case SocialList =>
      var parts := ListSections.Map(visible, s => ListItem(st, platforms, s));
      JsString.JoinContains(parts, "\n", i);
      JsString.ContainsTrans(JsString.Join(parts, "\n"), parts[i], s.url);
  }

  lemma HeadedStarts(visible: seq<SocialLink>, content: string)
    requires |visible| > 0 && content != ""
    ensures Headed(visible, content) != "" && JsString.StartsWith(Headed(visible, content), ConnectHeading)
  {
    JsString.PrefixConcat(ConnectHeading, content);
  }

  lemma HeadedShows(visible: seq<SocialLink>, content: string, url: string)
    requires |visible| > 0 && JsString.Contains(content, url) && url != ""
    ensures JsString.Contains(Headed(visible, content), url)
  {
    JsString.ContainsConcat(ConnectHeading, content, url);
  }

  /** The section is there exactly when some link has both a platform and
      a URL, and then starts with its heading. */
  lemma SocialsSectionEmpty(style: SocialStyle, enc: string -> string, st: SocialIconStyle,
    platforms: seq<SocialPlatformInfo>, socials: seq<SocialLink>)
    ensures SocialsSection(style, enc, st, platforms, socials) == "" <==> forall s | s in socials :: !IsVisible(s)
    ensures SocialsSection(style, enc, st, platforms, socials) != "" ==>
      JsString.StartsWith(SocialsSection(style, enc, st, platforms, socials), ConnectHeading)
  {
    var visible := ListSections.Filter(socials, IsVisible);
    var content := SocialContent(style, enc, st, platforms, visible);
    assert SocialsSection(style, enc, st, platforms, socials) == Headed(visible, content);
    NoneVisible(socials);
    if |visible| > 0 {
      assert visible[0] in visible;
      ContentNonEmpty(style, enc, st, platforms, visible);
    }
    HeadedEmpty(visible, content);
  }

  /** A non-empty URL is enough for the content to be there. */
  lemma ContentNonEmpty(style: SocialStyle, enc: string -> string, st: SocialIconStyle,
    platforms: seq<SocialPlatformInfo>, visible: seq<SocialLink>)
    requires |visible| > 0 && visible[0].url != ""
    ensures SocialContent(style, enc, st, platforms, visible) != ""
  {
    ContentShowsUrl(style, enc, st, platforms, visible, 0);
    JsString.ContainsNonEmpty(SocialContent(style, enc, st, platforms, visible), visible[0].url);
  }

  /** The heading and content are there exactly when some link is. */
  lemma HeadedEmpty(visible: seq<SocialLink>, content: string)
    requires |visible| > 0 ==> content != ""
    ensures Headed(visible, content) == "" <==> |visible| == 0
    ensures Headed(visible, content) != "" ==> JsString.StartsWith(Headed(visible, content), ConnectHeading)
  {
    if |visible| > 0 {
      HeadedStarts(visible, content);
    }
  }

  /** No link is kept exactly when none has both a platform and a URL. */
  lemma NoneVisible(socials: seq<SocialLink>)
    ensures |ListSections.Filter(socials, IsVisible)| == 0 <==> forall s | s in socials :: !IsVisible(s)
  {
    var visible := ListSections.Filter(socials, IsVisible);
    if |visible| > 0 {
      assert visible[0] in visible;
    }
  }

  lemma VisibleAt(socials: seq<SocialLink>, s: SocialLink) returns (i: nat)
    requires s in socials && IsVisible(s)
    ensures i < |ListSections.Filter(socials, IsVisible)| && ListSections.Filter(socials, IsVisible)[i] == s
  {
    var visible := ListSections.Filter(socials, IsVisible);
    assert s in visible;
    i :| 0 <= i < |visible| && visible[i] == s;
  }

  lemma HeadedContentShows(style: SocialStyle, enc: string -> string, st: SocialIconStyle,
    platforms: seq<SocialPlatformInfo>, visible: seq<SocialLink>, i: nat)
    requires i < |visible| && visible[i].url != ""
    ensures JsString.Contains(Headed(visible, SocialContent(style, enc, st, platforms, visible)), visible[i].url)
  {
    ContentShowsUrl(style, enc, st, platforms, visible, i);
    HeadedShows(visible, SocialContent(style, enc, st, platforms, visible), visible[i].url);
  }

  /** Every link with a platform and a URL is shown. */
  lemma SocialShown(style: SocialStyle, enc: string -> string, st: SocialIconStyle,
    platforms: seq<SocialPlatformInfo>, socials: seq<SocialLink>, s: SocialLink)
    requires s in socials && IsVisible(s)
    ensures JsString.Contains(SocialsSection(style, enc, st, platforms, socials), s.url)
  {
    var i := VisibleAt(socials, s);
    HeadedContentShows(style, enc, st, platforms, ListSections.Filter(socials, IsVisible), i);
  }

  /** The `socials` renderer is empty exactly when no link has both a URL
      and a platform, starts with its heading otherwise, and shows the URL
      of every such link. */
  lemma SocialsRendered(d: FormData, enc: string -> string)
    ensures RenderSocials(d, enc) == "" <==> forall s | s in d.socials :: !IsVisible(s)
    ensures RenderSocials(d, enc) != "" ==> JsString.StartsWith(RenderSocials(d, enc), ConnectHeading)
    ensures forall s | s in d.socials && IsVisible(s) :: JsString.Contains(RenderSocials(d, enc), s.url)
  {
    SocialsSectionEmpty(d.socialStyle, enc, d.socialIconStyle, SocialPlatforms, d.socials);
    forall s | s in d.socials && IsVisible(s)
      ensures JsString.Contains(RenderSocials(d, enc), s.url)
    {
      SocialShown(d.socialStyle, enc, d.socialIconStyle, SocialPlatforms, d.socials, s);
    }
  }
}
