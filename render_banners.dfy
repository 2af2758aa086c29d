/** The two banner renderers: an SVG image, encoded into a `data:` URL,
    behind a Markdown image. The encoding
    `btoa(unescape(encodeURIComponent(svg)))` is the parameter `encode`. */
module Banners {
  import opened Wrappers
  import opened Types
  import opened Constants
  import JsString

  /** The main banner is 1200 pixels wide. */
  const BannerWidth := 1200

  /** `Math.round((width / arW) * arH)` */
  function BannerHeight(ratio: AspectRatio): nat
  {
    var (w, h) := ratio.Parts();
    JsString.Round(BannerWidth * h, w)
  }

  /** The heights of the five aspect ratios. */
  lemma BannerHeights()
    ensures BannerHeight(R1x1) == 1200 && BannerHeight(R16x9) == 675 && BannerHeight(R9x16) == 2133
    ensures BannerHeight(R4x3) == 900 && BannerHeight(R3x4) == 1600
  {
  }

  /** The two text lines every banner ends with: the title and the
      subtitle. */
  function BannerText(title: string, subtitle: string): (r: string)
    ensures JsString.Contains(r, title) && JsString.Contains(r, subtitle)
    ensures r != "" && r[|r| - 1] == '>'
  {
    var front :=
      "\n  <text x=\"50%\"" + " y=\"45%\" dominan" + "t-baseline=\"midd" + "le\" text-anchor="
      + "\"middle\" class=\"" + "title\">";
    var mid :=
      "</text>\n" + "  <text x=\"50%\" " + "y=\"65%\" dominant" + "-baseline=\"middl" + "e\" text-anchor=\""
      + "middle\" class=\"s" + "ubtitle\">";
    var end :=
      "</text>\n" + "</svg>";
    var a := front + title;
    var b := mid + subtitle + end;
    JsString.ContainsEnd(front, title);
    JsString.ContainsConcat(a, b, title);
    JsString.ContainsInfix(mid, subtitle, end);
    JsString.ContainsConcat(a, b, subtitle);
    assert end[|end| - 1] == '>';
    assert (a + b)[|a + b| - 1] == end[|end| - 1];
    a + b
  }

  /** What comes after the SVG's closing tag in the template. */
  const TemplateTail :=
    "\n               " + " "

  lemma TailIsWhite()
    ensures JsString.AllWhite("\n") && JsString.AllWhite(TemplateTail)
  {
  }

  // ---------------------------------------------------------------------
  // The main banner
  // ---------------------------------------------------------------------

  /** The generated image, or a dark placeholder with a hint. */
  function Backdrop(url: string, h: string): string
  {
    if url != "" then
      "<image href=\"" + url + "\" x=\"0\" y=\"0\" wi" + "dth=\"" + "1200" + "\" height=\"" + h
      + "\" preserveAspect" + "Ratio=\"xMidYMid " + "slice\" />"
    else
      "<rect width=\"" + "1200" + "\" height=\"" + h + "\" fill=\"#0d1117\"" + " /><text x=\"50%\""
      + " y=\"50%\" dominan" + "t-baseline=\"midd" + "le\" text-anchor=" + "\"middle\" class=\""
      + "subtitle\">Genera" + "te an AI image t" + "o see it here</t" + "ext>"
  }

  /** The start of the main banner's SVG, which gives its size. */
  function MainSvgHead(height: nat): string
  {
    "<svg width=\"1200\" height=\"" + JsString.NatToString(height)
  }

  /** Everything of the main banner's SVG before the text lines. */
  function MainSvgFront(url: string, height: nat): (r: string)
    ensures JsString.StartsWith(r, MainSvgHead(height))
  {
    var h := JsString.NatToString(height);
    var rest :=
      "\" viewBox=\"0 0 " + "1200" + " " + h + "\" fill=\"none\" xm" + "lns=\"http://www."
      + "w3.org/2000/svg\"" + " xmlns:xlink=\"ht" + "tp://www.w3.org/" + "1999/xlink\">\n" + "  <style>\n"
      + "    .title { fon" + "t: 600 60px 'Seg" + "oe UI', Ubuntu, " + "\"Helvetica Neue\""
      + ", Sans-Serif; fi" + "ll: #fff; text-s" + "hadow: 2px 2px 6" + "px rgba(0,0,0,0." + "8); }\n"
      + "    .subtitle { " + "font: 400 30px '" + "Segoe UI', Ubunt" + "u, \"Helvetica Ne"
      + "ue\", Sans-Serif;" + " fill: #e0e0e0; " + "text-shadow: 1px" + " 1px 4px rgba(0," + "0,0,0.9); }\n"
      + "  </style>\n" + "  ";
    var overlay :=
      "\n  <rect x=\"0\" y" + "=\"0\" width=\"" + "1200" + "\" height=\"" + h + "\" fill=\"rgba(0,0"
      + ",0,0.25)\"/>";
    var tail := rest + Backdrop(url, h) + overlay;
    JsString.PrefixConcat(MainSvgHead(height), tail);
    MainSvgHead(height) + tail
  }

  function MainSvgCore(m: MainHeaderConfig): string
  {
    MainSvgFront(m.generatedImageUrl, BannerHeight(m.aiAspectRatio)) + BannerText(m.title, m.subtitle)
  }

  /** The template literal, trimmed. */
  function MainSvg(m: MainHeaderConfig): string
  {
    JsString.Trim("\n" + MainSvgCore(m) + TemplateTail)
  }

  /** A Markdown image whose URL is the prefix followed by the encoded SVG. */
  function Embed(prefix: string, encoded: string): (r: string)
    ensures JsString.StartsWith(r, prefix) && JsString.Contains(r, encoded)
    ensures r != ""
  {
    JsString.PrefixConcat(prefix, encoded + ")");
    JsString.ContainsInfix(prefix, encoded, ")");
    prefix + (encoded + ")")
  }

  const MainBannerPrefix := "![Main Banner](da" + "ta:image/svg+xml" + ";base64,"

  /** The `mainHeaderBanner` renderer. */
  function MainBanner(m: MainHeaderConfig, encode: string -> string): string
  {
    if !m.enabled then "" else Embed(MainBannerPrefix, encode(MainSvg(m)))
  }

  function RenderMainHeaderBanner(d: FormData, encode: string -> string): string
  {
    MainBanner(d.mainHeader, encode)
  }

  /** Trimming a template takes off exactly the white space around the SVG. */
  lemma TrimTemplate(core: string)
    requires core != "" && core[0] == '<' && core[|core| - 1] == '>'
    ensures JsString.Trim("\n" + core + TemplateTail) == core
  {
    TailIsWhite();
    JsString.TrimAround("\n", core, TemplateTail);
  }

  /** The main banner's SVG: its size follows the aspect ratio, and it shows
      the title, the subtitle and the generated image when there is one. */
  lemma MainSvgShows(m: MainHeaderConfig)
    ensures JsString.StartsWith(MainSvg(m), MainSvgHead(BannerHeight(m.aiAspectRatio)))
    ensures JsString.Contains(MainSvg(m), m.title) && JsString.Contains(MainSvg(m), m.subtitle)
  {
    var front := MainSvgFront(m.generatedImageUrl, BannerHeight(m.aiAspectRatio));
    var text := BannerText(m.title, m.subtitle);
    assert front[0] == MainSvgHead(BannerHeight(m.aiAspectRatio))[0];
    TrimTemplate(front + text);
    JsString.StartsWithConcat(front, MainSvgHead(BannerHeight(m.aiAspectRatio)), text);
    JsString.ContainsConcat(front, text, m.title);
    JsString.ContainsConcat(front, text, m.subtitle);
  }

  /** The banner is there exactly when it is enabled, and then embeds the
      encoded SVG in a `data:` URL. */
  lemma MainBannerParts(m: MainHeaderConfig, encode: string -> string)
    ensures MainBanner(m, encode) == "" <==> !m.enabled
    ensures m.enabled ==> JsString.StartsWith(MainBanner(m, encode), MainBannerPrefix)
    ensures m.enabled ==> JsString.Contains(MainBanner(m, encode), encode(MainSvg(m)))
  {
  }

  // ---------------------------------------------------------------------
  // The profile banner
  // ---------------------------------------------------------------------

  /** `HEADER_BACKGROUNDS[background] || HEADER_BACKGROUNDS['gradient-1']`,
      with the key of the entry used. */
  function ResolveBackground(bgs: seq<(string, Background)>, key: string): Option<(string, Background)>
  {
    match FindBackground(bgs, key)
    case Some(b) => Some((key, b))
    case None =>
      match FindBackground(bgs, "gradient-1")
      case Some(b) => Some(("gradient-1", b))
      case None => None
  }

  /** A key resolves to itself when it is in the table, and to
      `gradient-1` otherwise, which every table with a `gradient-1` entry
      has. */
  lemma ResolveFallsBack(bgs: seq<(string, Background)>, key: string)
    requires FindBackground(bgs, "gradient-1").Some?
    ensures ResolveBackground(bgs, key).Some?
    ensures FindBackground(bgs, key).Some? ==> ResolveBackground(bgs, key) == Some((key, FindBackground(bgs, key).value))
    ensures FindBackground(bgs, key).None? ==>
      ResolveBackground(bgs, key) == Some(("gradient-1", FindBackground(bgs, "gradient-1").value))
  {
  }

  /** With the background table, every key resolves, and an unknown key
      falls back to the first background. */
  lemma BackgroundResolves(key: string)
    ensures ResolveBackground(HeaderBackgrounds, key).Some?
    ensures FindBackground(HeaderBackgrounds, key).None? ==>
      ResolveBackground(HeaderBackgrounds, key) == Some(("gradient-1", HeaderBackgrounds[0].1))
  {
    DefaultBackgroundExists();
    ResolveFallsBack(HeaderBackgrounds, key);
  }

  /** Everything of the profile banner's SVG before the text lines. */
  function ProfileSvgFront(defs: string, bg: Background): (r: string)
    ensures JsString.Contains(r, defs) && r != "" && r[0] == '<'
  {
    var open :=
      "<" + (
      "svg width=\"800\" " + "height=\"200\" vie" + "wBox=\"0 0 800 20" + "0\" fill=\"none\" x"
      + "mlns=\"http://www" + ".w3.org/2000/svg" + "\">\n  <style>\n" + "    .title { fon"
      + "t: 600 45px 'Seg" + "oe UI', Ubuntu, " + "\"Helvetica Neue\"" + ", Sans-Serif; fi"
      + "ll: #fff; text-s" + "hadow: 2px 2px 4" + "px rgba(0,0,0,0." + "3); }\n" + "    .subtitle { "
      + "font: 400 22px '" + "Segoe UI', Ubunt" + "u, \"Helvetica Ne" + "ue\", Sans-Serif;"
      + " fill: #c9d1d9; " + "text-shadow: 1px" + " 1px 2px rgba(0," + "0,0,0.5); }\n" + "  </style>\n"
      + "  <defs>");
    var mid :=
      "</defs>\n" + "  <rect width=\"8" + "00\" height=\"200\"" + " fill=\"" + bg.bgColor + "\"/>\n"
      + "  <rect width=\"8" + "00\" height=\"200\"" + " fill=\"" + bg.fill + "\"/>";
    JsString.ContainsInfix(open, defs, mid);
    assert (open + defs + mid)[0] == open[0];
    open + defs + mid
  }

  function ProfileSvgCore(defs: string, bg: Background, title: string, name: string, subtitle: string): string
  {
    ProfileSvgFront(defs, bg) + BannerText(title + " " + name, subtitle)
  }

  const ProfileBannerPrefix := "![Profile Header" + "](data:image/svg" + "+xml;base64,"

  /** The `profileHeaderBanner` renderer over a background table and the
      `svgDefs` of each of its keys. */
  function ProfileBanner(p: ProfileHeaderConfig, name: string, bgs: seq<(string, Background)>,
    svgDefs: string -> string, encode: string -> string): string
  {
    if !p.enabled then ""
    else
      match ResolveBackground(bgs, p.background)
      case None => ""
      case Some((key, bg)) =>
        var svg := JsString.Trim("\n" + ProfileSvgCore(svgDefs(key), bg, p.title, name, p.subtitle) + TemplateTail);
        Embed(ProfileBannerPrefix, encode(svg))
  }

  function RenderProfileHeaderBanner(d: FormData, encode: string -> string): string
  {
    ProfileBanner(d.profileHeader, d.name, HeaderBackgrounds, BackgroundSvgDefs, encode)
  }

  /** The profile banner's SVG shows the background's definitions, the
      title followed by the user's name, and the subtitle. */
  lemma ProfileSvgShows(defs: string, bg: Background, title: string, name: string, subtitle: string)
    ensures var svg := JsString.Trim("\n" + ProfileSvgCore(defs, bg, title, name, subtitle) + TemplateTail);
      JsString.Contains(svg, defs) && JsString.Contains(svg, title + " " + name) && JsString.Contains(svg, subtitle)
  {
    var front := ProfileSvgFront(defs, bg);
    var text := BannerText(title + " " + name, subtitle);
    TrimTemplate(front + text);
    JsString.ContainsConcat(front, text, title + " " + name);
    JsString.ContainsConcat(front, text, subtitle);
    JsString.ContainsConcat(front, text, defs);
  }

  /** The profile banner is empty exactly when it is disabled or the
      background cannot be resolved; otherwise it is the Profile Header
      image holding the encoded SVG of the resolved background. */
  lemma ProfileBannerParts(p: ProfileHeaderConfig, name: string, bgs: seq<(string, Background)>,
    svgDefs: string -> string, encode: string -> string)
    ensures ProfileBanner(p, name, bgs, svgDefs, encode) == "" <==>
      !p.enabled || ResolveBackground(bgs, p.background).None?
    ensures p.enabled && ResolveBackground(bgs, p.background).Some? ==>
      var (key, bg) := ResolveBackground(bgs, p.background).value;
      JsString.StartsWith(ProfileBanner(p, name, bgs, svgDefs, encode), ProfileBannerPrefix) &&
      JsString.Contains(ProfileBanner(p, name, bgs, svgDefs, encode),
        encode(JsString.Trim("\n" + ProfileSvgCore(svgDefs(key), bg, p.title, name, p.subtitle) + TemplateTail)))
  {
  }

  /** With the shipped background table, the profile banner is there
      exactly when it is enabled. */
  lemma ProfileHeaderShown(d: FormData, encode: string -> string)
    ensures RenderProfileHeaderBanner(d, encode) == "" <==> !d.profileHeader.enabled
    ensures d.profileHeader.enabled ==> JsString.StartsWith(RenderProfileHeaderBanner(d, encode), ProfileBannerPrefix)
  {
    BackgroundResolves(d.profileHeader.background);
    ProfileBannerParts(d.profileHeader, d.name, HeaderBackgrounds, BackgroundSvgDefs, encode);
  }
}
