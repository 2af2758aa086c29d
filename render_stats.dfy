/** The two renderers of the renderer table that show GitHub statistics:
    the analytics cards and the statistics cards (the standard image cards,
    or a single metrics image in the advanced style). Both write their
    images one per line and then indent every non-empty line. */
module StatsSections {
  import opened Types
  import JsString
  import ListSections

  const AccentColor := "a855f7"

  /** The comment lines a workflow replaces by the pinned repositories. */
  const PinnedStart := "<!-- PINNED-REPOS-" + "START -->"
  const PinnedEnd := "<!-- PINNED-REPOS-" + "END -->"

  /** `${!showBorder}` */
  function HideBorder(d: FormData): string
  {
    if d.showBorder then "false" else "true"
  }

  /** `cond ? text : ''`, the text an `if (cond) content += text` adds. */
  function Opt(cond: bool, text: string): string
  {
    if cond then text else ""
  }

  predicate NonEmpty(s: string)
  {
    s != ""
  }

  function Indent(s: string): string
  {
    "  " + s
  }

  /** `content.split('\n').filter(Boolean).map(item => `  ${item}`).join('\n')` */
  function IndentLines(content: string): string
  {
    JsString.Join(ListSections.Map(ListSections.Filter(JsString.Split(content, '\n'), NonEmpty), Indent), "\n")
  }

  /** Every non-empty line of the content is shown, indented. */
  lemma IndentLinesShows(content: string, line: string)
    requires line in JsString.Split(content, '\n') && line != ""
    ensures JsString.Contains(IndentLines(content), "  " + line)
  {
    var kept := ListSections.Filter(JsString.Split(content, '\n'), NonEmpty);
    assert line in kept;
    var i :| 0 <= i < |kept| && kept[i] == line;
    var parts := ListSections.Map(kept, Indent);
    JsString.JoinContains(parts, "\n", i);
  }

  /** The heading and the indented lines in a centred paragraph. */
  function Centered(heading: string, content: string): string
  {
    heading + "<p align=\"center\">\n" + IndentLines(content) + "\n</p>"
  }

  lemma CenteredShows(heading: string, content: string, line: string)
    requires line in JsString.Split(content, '\n') && line != ""
    ensures JsString.Contains(Centered(heading, content), "  " + line)
  {
    IndentLinesShows(content, line);
    JsString.ContainsConcat(heading + "<p align=\"center\">\n", IndentLines(content), "  " + line);
    JsString.ContainsConcat(heading + "<p align=\"center\">\n" + IndentLines(content), "\n</p>", "  " + line);
  }

  // ---------------------------------------------------------------------
  // Analytics
  // ---------------------------------------------------------------------

  const AnalyticsHeading := "### " + "\U{00F0}\U{0178}\U{201C}\U{0160} GitHub Analytics\n\n"

  function ActivityGraphLine(d: FormData): string
  {
    "<img src=\"" + "https://github-readme-" + "activity-graph" + ".vercel.app" + "/graph?username=" + d.githubUser
    + "&bg_color=0d1117" + "&color=ffffff" + "&line=" + AccentColor + "&point=ffffff" + "&area=true" + "&hide_border=true"
    + "\" alt=\"GitHub " + "Activity Graph\" />"
  }

  function WakatimeChartLine(d: FormData): string
  {
    "<img src=\"" + "https://github-readme-" + "stats.vercel.app" + "/api/wakatime" + "?username=" + d.wakatimeUser
    + "&theme=" + d.statsTheme + "&hide_border=" + HideBorder(d) + "&layout=compact" + "&bg_color=0d1117"
    + "&border_radius=" + JsString.IntToString(d.borderRadius) + "&border_color=" + d.borderColor
    + "\" alt=\"WakaTime " + "Chart\" />"
  }

  function AnalyticsContent(d: FormData, graph: string, chart: string): string
  {
    Opt(d.showActivityGraph, graph + "\n") + Opt(d.showWakatimeChart && d.wakatimeUser != "", chart + "\n")
  }

  function RenderGithubAnalytics(d: FormData): string
  {
    if d.githubUser == "" then ""
    else
      var content := AnalyticsContent(d, ActivityGraphLine(d), WakatimeChartLine(d));
      if content != "" then Centered(AnalyticsHeading, content) else ""
  }

  lemma AnalyticsContentEmpty(d: FormData, graph: string, chart: string)
    ensures AnalyticsContent(d, graph, chart) == "" <==>
      !d.showActivityGraph && !(d.showWakatimeChart && d.wakatimeUser != "")
  {
    assert |AnalyticsContent(d, graph, chart)| == |Opt(d.showActivityGraph, graph + "\n")|
      + |Opt(d.showWakatimeChart && d.wakatimeUser != "", chart + "\n")|;
  }

  /** The analytics section needs a GitHub user and at least one chart: the
      activity graph, or the WakaTime chart together with a WakaTime user. */
  lemma AnalyticsSection(d: FormData)
    ensures RenderGithubAnalytics(d) == "" <==>
      d.githubUser == "" || (!d.showActivityGraph && !(d.showWakatimeChart && d.wakatimeUser != ""))
  {
    var content := AnalyticsContent(d, ActivityGraphLine(d), WakatimeChartLine(d));
    AnalyticsContentEmpty(d, ActivityGraphLine(d), WakatimeChartLine(d));
    if d.githubUser != "" && content != "" {
      assert |Centered(AnalyticsHeading, content)| >= |AnalyticsHeading|;
    }
  }

  // ---------------------------------------------------------------------
  // Statistics, advanced style
  // ---------------------------------------------------------------------

  const InsightsHeading := "### " + "\U{00F0}\U{0178}\U{201C}\U{0160} My GitHub Stats & Insights\n\n"

  const LanguagesParams := "&languages=true" + "&languages.limit=8" + "&languages.sections=" + "most-used"
    + "&languages.indepth=" + "true" + "&languages.details=" + "bytes-size," + "percentage" + "&languages.colors=" + "github"
  const HabitsParams := "&habits=true" + "&habits.from=200" + "&habits.charts=true" + "&habits.trim=true"
  const IsocalendarParams := "&isocalendar=true" + "&isocalendar." + "duration=half-year"
  const SkylineParams := "&skyline=true"

  /** The metrics image address before any optional metric is added. */
  function MetricsBase(d: FormData): string
  {
    "https://metrics" + ".lecoq.io/" + d.githubUser + "?template=classic" + "&theme=" + d.statsTheme
    + "&config.timezone=" + d.githubUtcOffset
    + "&base.header=true" + "&base.activity=true" + "&base.community=" + "true" + "&base.repositories=" + "true"
    + "&base.metadata=" + "false"
  }

  /** The base address followed by the selected options, in order. */
  function WithOptions(base: string, m: AdvancedMetrics, languages: string, habits: string, iso: string, skyline: string): string
  {
    base + Opt(m.languages, languages) + Opt(m.habits, habits) + Opt(m.isocalendar, iso) + Opt(m.skyline, skyline)
  }

  lemma WithOptionsParts(base: string, m: AdvancedMetrics, languages: string, habits: string, iso: string, skyline: string)
    ensures var r := WithOptions(base, m, languages, habits, iso, skyline);
      JsString.StartsWith(r, base)
      && (m.languages ==> JsString.Contains(r, languages))
      && (m.habits ==> JsString.Contains(r, habits))
      && (m.isocalendar ==> JsString.Contains(r, iso))
      && (m.skyline ==> JsString.Contains(r, skyline))
      && (!m.languages && !m.habits && !m.isocalendar && !m.skyline ==> r == base)
  {
    var l := Opt(m.languages, languages);
    var h := Opt(m.habits, habits);
    var i := Opt(m.isocalendar, iso);
    var s := Opt(m.skyline, skyline);
    JsString.PrefixConcat(base, l);
    JsString.StartsWithConcat(base + l, base, h);
    JsString.StartsWithConcat(base + l + h, base, i);
    JsString.StartsWithConcat(base + l + h + i, base, s);
    JsString.ContainsEnd(base, l);
    JsString.ContainsConcat(base + l, h, l);
    JsString.ContainsConcat(base + l + h, i, l);
    JsString.ContainsConcat(base + l + h + i, s, l);
    JsString.ContainsEnd(base + l, h);
    JsString.ContainsConcat(base + l + h, i, h);
    JsString.ContainsConcat(base + l + h + i, s, h);
    JsString.ContainsEnd(base + l + h, i);
    JsString.ContainsConcat(base + l + h + i, s, i);
    JsString.ContainsEnd(base + l + h + i, s);
  }

  function MetricsUrl(d: FormData): string
  {
    WithOptions(MetricsBase(d), d.advancedMetrics, LanguagesParams, HabitsParams, IsocalendarParams, SkylineParams)
  }

  /** The metrics address is the base address followed by the parameters of
      each selected metric, in the fixed order languages, habits,
      isocalendar, skyline; with no metric selected it is the base address. */
  lemma MetricsUrlParts(d: FormData)
    ensures JsString.StartsWith(MetricsUrl(d), MetricsBase(d))
    ensures d.advancedMetrics.languages ==> JsString.Contains(MetricsUrl(d), LanguagesParams)
    ensures d.advancedMetrics.habits ==> JsString.Contains(MetricsUrl(d), HabitsParams)
    ensures d.advancedMetrics.isocalendar ==> JsString.Contains(MetricsUrl(d), IsocalendarParams)
    ensures d.advancedMetrics.skyline ==> JsString.Contains(MetricsUrl(d), SkylineParams)
    ensures (!d.advancedMetrics.languages && !d.advancedMetrics.habits && !d.advancedMetrics.isocalendar
      && !d.advancedMetrics.skyline) ==> MetricsUrl(d) == MetricsBase(d)
  {
    WithOptionsParts(MetricsBase(d), d.advancedMetrics, LanguagesParams, HabitsParams, IsocalendarParams, SkylineParams);
  }

  function MetricsImage(url: string): string
  {
    "<img src=\"" + url + "\" alt=\"GitHub " + "Metrics\" />"
  }

  function MetricsCard(d: FormData): string
  {
    MetricsImage(MetricsUrl(d))
  }

  lemma MetricsCardShowsUrl(front: string, url: string, back: string)
    ensures JsString.Contains(front + MetricsImage(url) + back, url)
  {
    JsString.ContainsEnd("<img src=\"", url);
    JsString.ContainsConcat("<img src=\"" + url, "\" alt=\"GitHub ", url);
    JsString.ContainsConcat("<img src=\"" + url + "\" alt=\"GitHub ", "Metrics\" />", url);
    JsString.ContainsConcat(front, MetricsImage(url), url);
    JsString.ContainsConcat(front + MetricsImage(url), back, url);
  }

  // ---------------------------------------------------------------------
  // Statistics, standard style
  // ---------------------------------------------------------------------

  const StatsHeading := "### " + "\U{00F0}\U{0178}\U{201C}\U{0160} My GitHub Stats\n\n"

  /** The card parameters shared by the statistics and top-languages cards. */
  function StatsParams(d: FormData): string
  {
    "&theme=" + d.statsTheme + "&hide_border=" + HideBorder(d) + "&border_radius=" + JsString.IntToString(d.borderRadius)
    + "&show_icons=true" + "&count_private=" + "true" + "&bg_color=0d1117" + "&text_color=c9d1d9"
    + "&title_color=" + AccentColor + "&icon_color=" + AccentColor + "&border_color=" + d.borderColor
  }

  const SummaryCardBaseUrl := "https://github-" + "profile-summary-" + "cards.vercel.app" + "/api/cards"

  function VisitorsLine(d: FormData): string
  {
    "<img src=\"" + "https://komarev.com" + "/ghpvc/?username=" + d.githubUser + "&label=Profile" + "%20Visitors"
    + "&color=a855f7" + "&style=flat" + "\" alt=\"Profile " + "Visitors\" />"
  }

  function StatsCardLine(d: FormData): string
  {
    "<img src=\"" + "https://github-readme-" + "stats.vercel.app" + "/api?username=" + d.githubUser + StatsParams(d)
    + "\" alt=\"GitHub " + "Stats\" />"
  }

  function SummaryLine(d: FormData): string
  {
    "<img src=\"" + SummaryCardBaseUrl + "/profile-details" + "?username=" + d.githubUser + "&theme=" + d.statsTheme
    + "\" alt=\"GitHub " + "Profile Summary\" />"
  }

  function TopLangsLine(d: FormData): string
  {
    "<img src=\"" + "https://github-readme-" + "stats.vercel.app" + "/api/top-langs/" + "?username=" + d.githubUser
    + StatsParams(d) + "&layout=compact" + "\" alt=\"Top " + "Languages\" />"
  }

  function ProductiveLine(d: FormData): string
  {
    "<img src=\"" + SummaryCardBaseUrl + "/productive-time" + "?username=" + d.githubUser + "&theme=" + d.statsTheme
    + "&utcOffset=" + d.githubUtcOffset + "\" alt=\"Productive " + "Time\" />"
  }

  function StreakLine(d: FormData): string
  {
    "<img src=\"" + "https://github-readme-" + "streak-stats" + ".herokuapp.com" + "?user=" + d.githubUser
    + "&theme=" + d.statsTheme + "&hide_border=" + HideBorder(d) + "&background=0d1117" + "&border=" + d.borderColor
    + "&stroke=" + AccentColor + "&ring=" + AccentColor + "&fire=" + AccentColor
    + "&currStreakNum=" + "ffffff" + "&sideNums=ffffff" + "&currStreakLabel=" + "ffffff" + "&sideLabels=" + "ffffff"
    + "&dates=ffffff" + "\" alt=\"GitHub " + "Streak\" />"
  }

  function TrophiesLine(d: FormData): string
  {
    "<img src=\"" + "https://github-" + "profile-trophy" + ".vercel.app" + "/?username=" + d.githubUser
    + "&theme=dracula" + "&no-frame=true" + "&no-bg=true" + "&margin-w=4" + "\" alt=\"GitHub " + "Trophies\" />"
  }

  function WakatimeBadge(d: FormData): string
  {
    "[![WakaTime](" + "https://wakatime.com" + "/badge/user/" + d.wakatimeUser + ".svg)](" + "https://wakatime.com"
    + "/@" + d.wakatimeUser + ")"
  }

  /** The pinned-repositories placeholder: two comment lines. */
  const PinnedPlaceholder := PinnedStart + "\n" + PinnedEnd + "\n"

  /** The lines of the standard cards, before the flags choose among them. */
  datatype StandardCards = StandardCards(
    visitors: string, stats: string, summary: string, topLangs: string,
    productive: string, streak: string, trophies: string, wakatime: string)

  function Cards(d: FormData): StandardCards
  {
    StandardCards(VisitorsLine(d), StatsCardLine(d), SummaryLine(d), TopLangsLine(d),
      ProductiveLine(d), StreakLine(d), TrophiesLine(d), WakatimeBadge(d))
  }

  /** What the cards after the placeholder add, in order. */
  function ContentAfterPinned(d: FormData, c: StandardCards): string
  {
    Opt(d.showStats, c.stats + "\n")
    + Opt(d.showProfileSummary, c.summary + "\n")
    + Opt(d.showTopLangs, c.topLangs + "\n")
    + Opt(d.showProductiveTime, c.productive + "\n")
    + Opt(d.showStreakStats, c.streak + "\n")
    + Opt(d.showTrophies, c.trophies + "\n")
    + Opt(d.showWakatimeBadge && d.wakatimeUser != "", "\n" + c.wakatime + "\n")
  }

  /** The successive `content += …` of the standard cards. */
  function ContentOf(d: FormData, c: StandardCards): string
  {
    Opt(d.showVisitors, c.visitors + "\n") + Opt(d.showPinnedRepos, PinnedPlaceholder) + ContentAfterPinned(d, c)
  }

  /** The standard style shows something exactly when one of its cards is
      switched on; the WakaTime badge also needs a WakaTime user. */
  predicate AnyStandardCard(d: FormData)
  {
    d.showVisitors || d.showPinnedRepos || d.showStats || d.showProfileSummary || d.showTopLangs
    || d.showProductiveTime || d.showStreakStats || d.showTrophies || (d.showWakatimeBadge && d.wakatimeUser != "")
  }

  /** The statistics section, given the lines of the standard cards. */
  function StatsFrom(d: FormData, c: StandardCards): string
  {
    if d.githubUser == "" then ""
    else if d.statsCardType == Advanced then
      InsightsHeading + "<p align=\"center\">\n  " + MetricsCard(d) + "\n</p>"
    else
      var content := ContentOf(d, c);
      if content != "" then Centered(StatsHeading, content) else ""
  }

  function RenderGithubStats(d: FormData): string
  {
    StatsFrom(d, Cards(d))
  }

  lemma ContentOfEmpty(d: FormData, c: StandardCards)
    ensures ContentOf(d, c) == "" <==> !AnyStandardCard(d)
  {
    var after := ContentAfterPinned(d, c);
    assert |after| == |Opt(d.showStats, c.stats + "\n")| + |Opt(d.showProfileSummary, c.summary + "\n")|
      + |Opt(d.showTopLangs, c.topLangs + "\n")| + |Opt(d.showProductiveTime, c.productive + "\n")|
      + |Opt(d.showStreakStats, c.streak + "\n")| + |Opt(d.showTrophies, c.trophies + "\n")|
      + |Opt(d.showWakatimeBadge && d.wakatimeUser != "", "\n" + c.wakatime + "\n")|;
    assert |ContentOf(d, c)| == |Opt(d.showVisitors, c.visitors + "\n")| + |Opt(d.showPinnedRepos, PinnedPlaceholder)|
      + |after|;
  }

  /** There are statistics exactly when there is a GitHub user and either the
      advanced style or at least one standard card, whatever the card lines
      are. */
  lemma StatsFromEmpty(d: FormData, c: StandardCards)
    ensures StatsFrom(d, c) == "" <==>
      d.githubUser == "" || (d.statsCardType == Standard && !AnyStandardCard(d))
  {
    ContentOfEmpty(d, c);
    if d.githubUser != "" && d.statsCardType == Advanced {
      assert |StatsFrom(d, c)| >= |InsightsHeading|;
    } else if d.githubUser != "" && ContentOf(d, c) != "" {
      assert |StatsFrom(d, c)| >= |StatsHeading|;
    }
  }

  /** The advanced style shows the metrics image. */
  lemma AdvancedStatsShowMetrics(d: FormData, c: StandardCards)
    requires d.githubUser != "" && d.statsCardType == Advanced
    ensures JsString.Contains(StatsFrom(d, c), MetricsUrl(d))
  {
    MetricsCardShowsUrl(InsightsHeading + "<p align=\"center\">\n  ", MetricsUrl(d), "\n</p>");
  }

  /** The two placeholder comments are lines of any content that has the
      placeholder after nothing or after a whole line. */
  lemma PinnedLinesSplit(showVisitors: bool, visitors: string, rest: string)
    ensures var content := Opt(showVisitors, visitors + "\n") + PinnedPlaceholder + rest;
      PinnedStart in JsString.Split(content, '\n') && PinnedEnd in JsString.Split(content, '\n')
  {
    var v := Opt(showVisitors, visitors + "\n");
    var x := v + PinnedStart + "\n" + PinnedEnd;
    assert '\n' !in PinnedStart;
    assert '\n' !in PinnedEnd;
    assert v + PinnedPlaceholder + rest == x + "\n" + rest;
    JsString.SplitAround(x, '\n', rest);
    JsString.SplitAround(v + PinnedStart, '\n', PinnedEnd);
    JsString.SplitNone(PinnedEnd, '\n');
    JsString.SplitNone(PinnedStart, '\n');
    if showVisitors {
      JsString.SplitAround(visitors, '\n', PinnedStart);
    } else {
      assert v + PinnedStart == PinnedStart;
    }
  }

  /** With the pinned repositories switched on, the two placeholder comments
      are lines of the standard content and so are shown, indented. */
  lemma CenteredShowsPinned(d: FormData, c: StandardCards)
    requires d.showPinnedRepos
    ensures JsString.Contains(Centered(StatsHeading, ContentOf(d, c)), "  " + PinnedStart)
    ensures JsString.Contains(Centered(StatsHeading, ContentOf(d, c)), "  " + PinnedEnd)
  {
    PinnedLinesSplit(d.showVisitors, c.visitors, ContentAfterPinned(d, c));
    assert PinnedStart != "" && PinnedEnd != "";
    CenteredShows(StatsHeading, ContentOf(d, c), PinnedStart);
    CenteredShows(StatsHeading, ContentOf(d, c), PinnedEnd);
  }

  /** With a GitHub user, the standard style and the pinned repositories
      switched on, the statistics hold the two placeholder lines, indented. */
  lemma StatsShowPinnedPlaceholder(d: FormData, c: StandardCards)
    requires d.githubUser != "" && d.statsCardType == Standard && d.showPinnedRepos
    ensures JsString.Contains(StatsFrom(d, c), "  " + PinnedStart)
    ensures JsString.Contains(StatsFrom(d, c), "  " + PinnedEnd)
  {
    CenteredShowsPinned(d, c);
    ContentOfEmpty(d, c);
  }

  lemma RenderedStatsShowPinnedPlaceholder(d: FormData)
    requires d.githubUser != "" && d.statsCardType == Standard && d.showPinnedRepos
    ensures JsString.Contains(RenderGithubStats(d), "  " + PinnedStart)
  {
    StatsShowPinnedPlaceholder(d, Cards(d));
  }

  /** The `githubStats` renderer is empty exactly when there is no GitHub
      user, or the standard cards are chosen and none is on. */
  lemma GithubStatsRendered(d: FormData)
    ensures RenderGithubStats(d) == "" <==>
      d.githubUser == "" || (d.statsCardType == Standard && !AnyStandardCard(d))
  {
    StatsFromEmpty(d, Cards(d));
  }

  /** In the advanced style, the `githubStats` renderer shows the metrics
      image. */
  lemma GithubStatsShowMetrics(d: FormData)
    requires d.githubUser != "" && d.statsCardType == Advanced
    ensures JsString.Contains(RenderGithubStats(d), MetricsUrl(d))
  {
    AdvancedStatsShowMetrics(d, Cards(d));
  }
}
