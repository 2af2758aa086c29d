/** The renderers of the renderer table that show a single text field or a
    pair of links: the greeting, the mission, the support badges, the blog
    placeholder and the footer. */
module TextSections {
  import opened Types
  import JsString

  // ---------------------------------------------------------------------
  // Greeting and mission
  // ---------------------------------------------------------------------

  const HiHeading := "## Hi there \U{00F0}\U{0178}\U{2018}\U{2039}\n\n"

  /** The greeting is always shown, even with an empty bio. */
  function RenderBasicInfo(d: FormData): (r: string)
    ensures r != "" && JsString.StartsWith(r, HiHeading)
    ensures r[|HiHeading|..] == d.bio
  {
    HiHeading + d.bio
  }

  const MissionHeading := "### " + "\U{00F0}\U{0178}\U{017D}\U{00AF} My Mission\n\n"

  function RenderMyMission(d: FormData): string
  {
    if d.myMission != "" then MissionHeading + d.myMission else ""
  }

  /** The mission section is there exactly when a mission is written, and then
      it is the heading followed by the mission text. */
  lemma MissionSection(d: FormData)
    ensures RenderMyMission(d) == "" <==> d.myMission == ""
    ensures d.myMission != "" ==>
      JsString.StartsWith(RenderMyMission(d), MissionHeading) && RenderMyMission(d)[|MissionHeading|..] == d.myMission
  {
    if d.myMission != "" {
      assert (MissionHeading + d.myMission)[..|MissionHeading|] == MissionHeading;
    }
  }

  // ---------------------------------------------------------------------
  // Support badges
  // ---------------------------------------------------------------------

  const SupportHeading := "### " + "\U{00F0}\U{0178}\U{2122} Support Me\n\n"

  /** The two support platforms the form has a handle for. */
  datatype SupportHost = BuyMeACoffee | KoFi {

    /** The badge's alt text. */
    function Label(): string
    {
      match this
      case BuyMeACoffee => "Buy Me A Coffee"
      case KoFi => "Ko-Fi"
    }

    /** The shields.io badge path and query. */
    function Shield(): string
    {
      match this
      case BuyMeACoffee => "Buy%20Me%20A%20Coffee-FFDD00" + "?style=for-the-badge" + "&logo=buy-me-a-coffee" + "&logoColor=black"
      case KoFi => "Ko--fi-F16061" + "?style=for-the-badge" + "&logo=ko-fi" + "&logoColor=white"
    }

    /** The address the user's handle is appended to. */
    function Page(): string
    {
      match this
      case BuyMeACoffee => "https://www.buymeacoffee.com/"
      case KoFi => "https://ko-fi.com/"
    }
  }

  /** The badge of a support platform, linking to the user's page there. */
  function SupportBadge(host: SupportHost, user: string): (r: string)
    ensures JsString.StartsWith(r, "[![") && JsString.Contains(r, host.Page() + user + ")")
  {
    var link := host.Page() + user + ")";
    var badge := host.Label() + "](" + "https://img.shields.io/badge/" + host.Shield() + ")](";
    JsString.PrefixConcat("[![", badge + link);
    JsString.ContainsEnd(badge, link);
    JsString.ContainsConcat("[![", badge + link, link);
    "[![" + (badge + link)
  }

  /** `[bmc && badge, kofi && badge].filter(Boolean)`: an empty handle gives
      the empty string, which the filter drops. */
  function SupportLinks(d: FormData): seq<string>
  {
    (if d.buyMeACoffee != "" then [SupportBadge(BuyMeACoffee, d.buyMeACoffee)] else [])
    + (if d.kofi != "" then [SupportBadge(KoFi, d.kofi)] else [])
  }

  function RenderSupportMe(d: FormData): string
  {
    var links := JsString.Join(SupportLinks(d), " ");
    if links != "" then SupportHeading + links else ""
  }

  /** The support section is there exactly when one of the two handles is
      filled in; each filled-in handle gets its badge, the coffee badge
      first, separated by one space. */
  lemma SupportSection(d: FormData)
    ensures RenderSupportMe(d) == "" <==> d.buyMeACoffee == "" && d.kofi == ""
    ensures d.buyMeACoffee != "" && d.kofi == "" ==> RenderSupportMe(d) == SupportHeading + SupportBadge(BuyMeACoffee, d.buyMeACoffee)
    ensures d.buyMeACoffee == "" && d.kofi != "" ==> RenderSupportMe(d) == SupportHeading + SupportBadge(KoFi, d.kofi)
    ensures d.buyMeACoffee != "" && d.kofi != "" ==>
      RenderSupportMe(d) == SupportHeading + SupportBadge(BuyMeACoffee, d.buyMeACoffee) + " " + SupportBadge(KoFi, d.kofi)
  {
    var links := SupportLinks(d);
    JsString.JoinEmpty(links, " ");
    if d.buyMeACoffee != "" {
      assert |SupportBadge(BuyMeACoffee, d.buyMeACoffee)| >= 3;
    } else if d.kofi != "" {
      assert |SupportBadge(KoFi, d.kofi)| >= 3;
    }
    if d.buyMeACoffee != "" && d.kofi != "" {
      assert links[1..] == [SupportBadge(KoFi, d.kofi)];
    }
  }

  /** Each filled-in handle is linked to its page. */
  lemma SupportHandlesShown(d: FormData)
    ensures d.buyMeACoffee != "" ==> JsString.Contains(RenderSupportMe(d), BuyMeACoffee.Page() + d.buyMeACoffee + ")")
    ensures d.kofi != "" ==> JsString.Contains(RenderSupportMe(d), KoFi.Page() + d.kofi + ")")
  {
    var links := SupportLinks(d);
    var joined := JsString.Join(links, " ");
    SupportSection(d);
    if d.buyMeACoffee != "" {
      var u := BuyMeACoffee.Page() + d.buyMeACoffee + ")";
      JsString.JoinContains(links, " ", 0);
      JsString.ContainsTrans(joined, SupportBadge(BuyMeACoffee, d.buyMeACoffee), u);
      JsString.ContainsConcat(SupportHeading, joined, u);
    }
    if d.kofi != "" {
      var u := KoFi.Page() + d.kofi + ")";
      var i := if d.buyMeACoffee != "" then 1 else 0;
      assert links[i] == SupportBadge(KoFi, d.kofi);
      JsString.JoinContains(links, " ", i);
      JsString.ContainsTrans(joined, SupportBadge(KoFi, d.kofi), u);
      JsString.ContainsConcat(SupportHeading, joined, u);
    }
  }

  // ---------------------------------------------------------------------
  // Blog posts
  // ---------------------------------------------------------------------

  const BlogHeading := "### " + "\U{00F0}\U{0178}\U{201C}\U{00B0} My Latest Blog Posts\n\n"
  const BlogPlaceholder := "<!-- BLOG-POST-LIST:START -->\n<!-- BLOG-POST-LIST:END -->"

  function RenderBlogPosts(d: FormData): string
  {
    if d.blogUrl != "" then BlogHeading + BlogPlaceholder else ""
  }

  /** The blog URL only switches the section on: the section holds the
      placeholder comments that a workflow fills in, never the URL. */
  lemma BlogSection(d: FormData, e: FormData)
    ensures RenderBlogPosts(d) == "" <==> d.blogUrl == ""
    ensures d.blogUrl != "" && e.blogUrl != "" ==> RenderBlogPosts(d) == RenderBlogPosts(e)
    ensures d.blogUrl != "" ==> JsString.Contains(RenderBlogPosts(d), BlogPlaceholder)
  {
    if d.blogUrl != "" {
      JsString.ContainsSelf(BlogPlaceholder);
      JsString.ContainsConcat(BlogHeading, BlogPlaceholder, BlogPlaceholder);
    }
  }

  // ---------------------------------------------------------------------
  // Footer
  // ---------------------------------------------------------------------

  function CardStyles(d: FormData): string
  {
    JsString.Template(["width: ", JsString.IntToString(d.footerCardWidth) + "%", "; margin: 20px auto;" + " padding: 15px;" + " border: 2px solid #",
      d.footerCardBorderColor, "; border-radius: ", JsString.IntToString(d.footerCardBorderRadius),
      "px;" + " background-color: #161b22;" + " text-align: center;"])
  }

  function RenderFooter(d: FormData): string
  {
    if d.footerText == "" then ""
    else match d.footerStyle
      case Card =>
        JsString.Template(["<div align=\"center\">\n  <div style=\"", CardStyles(d), "\">\n    ", d.footerText, "\n  </div>\n</div>"])
      case Centered => JsString.Template(["<p align=\"center\">", d.footerText, "</p>"])
      case Simple => JsString.Template(["\n---\n\n<p align=\"center\">", d.footerText, "</p>"])
  }

  /** The footer is there exactly when it has text, and then shows that text
      in every style; the simple style draws its own rule above it, and the
      card style shows the configured width. */
  lemma FooterSection(d: FormData)
    ensures RenderFooter(d) == "" <==> d.footerText == ""
    ensures d.footerText != "" ==> JsString.Contains(RenderFooter(d), d.footerText)
    ensures d.footerText != "" && d.footerStyle == Simple ==> JsString.StartsWith(RenderFooter(d), "\n---\n\n")
    ensures d.footerText != "" && d.footerStyle == Card ==>
      JsString.Contains(RenderFooter(d), JsString.IntToString(d.footerCardWidth) + "%")
  {
    if d.footerText != "" {
      match d.footerStyle
      case Card =>
        var pieces := ["<div align=\"center\">\n  <div style=\"", CardStyles(d), "\">\n    ", d.footerText, "\n  </div>\n</div>"];
        JsString.TemplateHas(pieces, 3);
        JsString.TemplateHas(pieces, 1);
        var w := JsString.IntToString(d.footerCardWidth);
        JsString.TemplateHas(["width: ", w + "%", "; margin: 20px auto;" + " padding: 15px;" + " border: 2px solid #",
          d.footerCardBorderColor, "; border-radius: ", JsString.IntToString(d.footerCardBorderRadius),
          "px;" + " background-color: #161b22;" + " text-align: center;"], 1);
        JsString.ContainsTrans(RenderFooter(d), CardStyles(d), w + "%");
      case Centered =>
        JsString.TemplateHas(["<p align=\"center\">", d.footerText, "</p>"], 1);
      case Simple =>
        var pieces := ["\n---\n\n<p align=\"center\">", d.footerText, "</p>"];
        JsString.TemplateHas(pieces, 1);
        assert JsString.StartsWith(pieces[0], "\n---\n\n");
    }
  }
}
