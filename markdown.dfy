/** The generated README: every key of the section order is looked up in
    the renderer table, the non-empty sections are joined by dividers, the
    pinned-repositories placeholder is removed or replaced, runs of
    dividers are collapsed and the result is trimmed. */
module Markdown {
  import opened Wrappers
  import opened Types
  import JsString
  import Banners
  import TextSections
  import SocialSection
  import TechSection
  import ListSections
  import ProjectSections
  import StatsSections

  /** The panels of the form that only configure it and write nothing
      into the README. */
  predicate ConfigOnly(key: SectionKey)
  {
    key == Appearance || key == AiAssistant || key == Settings || key == SectionLayout
  }

  /** `renderers[key]?.()`: the renderer table, where a key that only
      configures the form has no entry. `uri` stands for
      `encodeURIComponent` and `svg` for
      `btoa(unescape(encodeURIComponent(…)))`. */
  function Renderer(key: SectionKey, d: FormData, uri: string -> string, svg: string -> string): Option<string>
  {
    if ConfigOnly(key) then None else Some(Output(key, d, uri, svg))
  }

  /** The output of the renderer of a key that has one. */
  function Output(key: SectionKey, d: FormData, uri: string -> string, svg: string -> string): string
    requires !ConfigOnly(key)
  {
    match key
    case MainHeaderBanner => Banners.RenderMainHeaderBanner(d, svg)
    case ProfileHeaderBanner => Banners.RenderProfileHeaderBanner(d, svg)
    case BasicInfo => TextSections.RenderBasicInfo(d)
    case MyMission => TextSections.RenderMyMission(d)
    case Socials => SocialSection.RenderSocials(d, uri)
    case WorkExperience => ListSections.RenderWorkExperience(d)
    case Volunteering => ListSections.RenderVolunteering(d)
    case Projects => ProjectSections.RenderProjects(d)
    case FeaturedProjects => ProjectSections.RenderFeaturedProjects(d)
    case Education => ListSections.RenderEducation(d)
    case Certifications => ListSections.RenderCertifications(d)
    case Research => ListSections.RenderResearch(d)
    case Awards => ListSections.RenderAwards(d)
    case Publications => ListSections.RenderPublications(d)
    case Talks => ListSections.RenderTalks(d)
    case Languages => ListSections.RenderLanguages(d)
    case Hobbies => ListSections.RenderHobbies(d)
    case TechStack => TechSection.RenderTechStack(d, uri)
    case Hackathons => ListSections.RenderHackathons(d)
    case ProblemSolving => ListSections.RenderProblemSolving(d)
    case SupportMe => TextSections.RenderSupportMe(d)
    case BlogPosts => TextSections.RenderBlogPosts(d)
    case GithubAnalytics => StatsSections.RenderGithubAnalytics(d)
    case GithubStats => StatsSections.RenderGithubStats(d)
    case Footer => TextSections.RenderFooter(d)
    case CustomHtml => d.customHtml
  }

  /** The basic information always has something to show, and the
      custom HTML goes in verbatim. */
  lemma RendererTable(d: FormData, uri: string -> string, svg: string -> string)
    ensures Renderer(BasicInfo, d, uri, svg).Some? && Renderer(BasicInfo, d, uri, svg).value != ""
    ensures Renderer(CustomHtml, d, uri, svg) == Some(d.customHtml)
  {
  }

  /** `order.map(key => out(key)).filter(Boolean)`: the outputs of the keys,
      in order, leaving out every key with no renderer or an empty output. */
  function Sections(order: seq<SectionKey>, out: SectionKey -> Option<string>): (r: seq<string>)
    ensures |r| <= |order|
    ensures forall i | 0 <= i < |r| :: r[i] != ""
  {
    if |order| == 0 then []
    else
      var rest := Sections(order[1..], out);
      match out(order[0])
      case Some(s) => if s != "" then [s] + rest else rest
      case None => rest
  }

  /** What one key contributes: its output when it has a non-empty one. */
  function Contribution(key: SectionKey, out: SectionKey -> Option<string>): seq<string>
  {
    match out(key)
    case Some(s) => if s != "" then [s] else []
    case None => []
  }

  /** The sections follow the order: the sections of two orders back to
      back are those of the first and then those of the second. */
  lemma {:induction false} SectionsAppend(a: seq<SectionKey>, b: seq<SectionKey>, out: SectionKey -> Option<string>)
    ensures Sections(a + b, out) == Sections(a, out) + Sections(b, out)
  {
    if |a| == 0 {
      assert a + b == b;
    } else {
      assert (a + b)[1..] == a[1..] + b;
      SectionsAppend(a[1..], b, out);
    }
  }

  /** A single key contributes its non-empty output, and nothing when it
      has no renderer or its renderer returns the empty string. */
  lemma SectionsOne(key: SectionKey, out: SectionKey -> Option<string>)
    ensures Sections([key], out) == Contribution(key, out)
  {
    assert [key][1..] == [];
  }

  /** A key whose renderer has nothing to show leaves the sections, and so
      the README, as they would be without it. */
  lemma SilentKey(a: seq<SectionKey>, key: SectionKey, b: seq<SectionKey>, out: SectionKey -> Option<string>)
    requires out(key).None? || out(key) == Some("")
    ensures Sections(a + [key] + b, out) == Sections(a + b, out)
  {
    SectionsAppend(a + [key], b, out);
    SectionsAppend(a, [key], out);
    SectionsAppend(a, b, out);
    SectionsOne(key, out);
  }

  /** Every key with a non-empty output has its output among the
      sections. */
  lemma {:induction false} SectionShown(order: seq<SectionKey>, out: SectionKey -> Option<string>, i: nat)
    requires i < |order| && out(order[i]).Some? && out(order[i]).value != ""
    ensures out(order[i]).value in Sections(order, out)
  {
    if i > 0 {
      assert order[1..][i - 1] == order[i];
      SectionShown(order[1..], out, i - 1);
    }
  }

  /** The joined text, before the placeholder and the dividers are
      processed, holds the output of every key that has something to show. */
  lemma SectionInText(order: seq<SectionKey>, out: SectionKey -> Option<string>, i: nat)
    requires i < |order| && out(order[i]).Some? && out(order[i]).value != ""
    ensures JsString.Contains(JsString.Join(Sections(order, out), JsString.Divider), out(order[i]).value)
  {
    var ss := Sections(order, out);
    SectionShown(order, out, i);
    var k :| 0 <= k < |ss| && ss[k] == out(order[i]).value;
    JsString.JoinContains(ss, JsString.Divider, k);
  }

  /** Every section is the output of a key of the order. */
  lemma {:induction false} SectionsFromOrder(order: seq<SectionKey>, out: SectionKey -> Option<string>, s: string)
    requires s in Sections(order, out)
    ensures exists i | 0 <= i < |order| :: out(order[i]) == Some(s)
  {
    if out(order[0]) == Some(s) {
      assert out(order[0]) == Some(s);
    } else {
      SectionsFromOrder(order[1..], out, s);
      var i :| 0 <= i < |order[1..]| && out(order[1..][i]) == Some(s);
      assert order[1..][i] == order[i + 1];
    }
  }

  const ReposBadgeFront := "[![Top Repos](ht" + "tps://github-rea" + "dme-pinned-repos" + ".vercel.app/?use" + "rname="
  const ReposLinkFront := ")](https://githu" + "b.com/"

  /** The badge of the pinned repositories card. */
  function TopReposBadge(user: string): (r: string)
    ensures JsString.Contains(r, user)
  {
    var tail := ReposLinkFront + user + ")";
    JsString.ContainsInfix(ReposBadgeFront, user, tail);
    ReposBadgeFront + user + tail
  }

  /** The badge's fixed text holds no `$`, so substituting into the badge
      substitutes into the user name, in both places. */
  lemma BadgeSubstitution(user: string, matched: string, before: string, after: string)
    ensures JsString.Substitute(TopReposBadge(user), matched, before, after) ==
      TopReposBadge(JsString.Substitute(user, matched, before, after))
  {
    BadgeShape(user);
    BadgeShape(JsString.Substitute(user, matched, before, after));
    BadgeTextFree();
    JsString.SubstituteFreePrefix(ReposBadgeFront, user + (ReposLinkFront + (user + ")")), matched, before, after);
    LinkSubstitution(user, matched, before, after);
  }

  lemma BadgeShape(user: string)
    ensures TopReposBadge(user) == ReposBadgeFront + (user + (ReposLinkFront + (user + ")")))
  {
  }

  /** The same for the part of the badge from the first user name on. */
  lemma LinkSubstitution(user: string, matched: string, before: string, after: string)
    ensures var u := JsString.Substitute(user, matched, before, after);
      JsString.Substitute(user + (ReposLinkFront + (user + ")")), matched, before, after) ==
      u + (ReposLinkFront + (u + ")"))
  {
    var mid := ReposLinkFront;
    BadgeTextFree();
    assert (mid + (user + ")"))[0] == ')';
    JsString.SubstituteAppend(user, mid + (user + ")"), matched, before, after);
    JsString.SubstituteFreePrefix(mid, user + ")", matched, before, after);
    JsString.SubstituteAppend(user, ")", matched, before, after);
    JsString.SubstituteLiteral(")", matched, before, after);
  }

  lemma BadgeTextFree()
    ensures '$' !in ReposBadgeFront && '$' !in ReposLinkFront
  {
  }

  /** A user name holding `$&` puts the matched placeholder span into the
      badge in its place. */
  lemma DollarAmpersandInserts(matched: string, before: string, after: string)
    ensures JsString.Substitute("a$&", matched, before, after) == "a" + matched
  {
    assert "a$&"[1..] == "$&";
    assert "$&"[2..] == "";
  }

  /** The placeholder is removed unless a GitHub user is set and the
      pinned repositories are switched on; then it is replaced by the
      badge when the text has its start marker. */
  function ResolvePinned(raw: string, githubUser: string, showPinnedRepos: bool): string
  {
    if githubUser == "" || !showPinnedRepos then
      JsString.ReplaceSpan(raw, StatsSections.PinnedStart, StatsSections.PinnedEnd, "")
    else if JsString.Contains(raw, StatsSections.PinnedStart) then
      JsString.ReplaceSpan(raw, StatsSections.PinnedStart, StatsSections.PinnedEnd, TopReposBadge(githubUser))
    else raw
  }

  /** The README for a section order and a renderer table. */
  function Assemble(order: seq<SectionKey>, out: SectionKey -> Option<string>, githubUser: string, showPinnedRepos: bool): string
  {
    var raw := JsString.Join(Sections(order, out), JsString.Divider);
    JsString.Trim(JsString.CollapseDividers(ResolvePinned(raw, githubUser, showPinnedRepos)))
  }

  /** The `markdown` memo of the app. */
  function RenderMarkdown(d: FormData, uri: string -> string, svg: string -> string): string
  {
    Assemble(d.sectionOrder, Renderers(d, uri, svg), d.githubUser, d.showPinnedRepos)
  }

  /** The renderer table as one function of the key. */
  function Renderers(d: FormData, uri: string -> string, svg: string -> string): SectionKey -> Option<string>
  {
    k => Renderer(k, d, uri, svg)
  }

  /** When no key of the order renders anything, the README is empty. */
  lemma SilentFormEmpty(d: FormData, uri: string -> string, svg: string -> string)
    requires forall k | k in d.sectionOrder :: Renderer(k, d, uri, svg).None? || Renderer(k, d, uri, svg) == Some("")
    ensures RenderMarkdown(d, uri, svg) == ""
  {
    var out := Renderers(d, uri, svg);
    assert forall k | k in d.sectionOrder :: out(k).None? || out(k) == Some("");
    SilentOrder(d.sectionOrder, out);
    NothingToShow(d.sectionOrder, out, d.githubUser, d.showPinnedRepos);
  }

  /** An order none of whose keys has something to show has no sections. */
  lemma {:induction false} SilentOrder(order: seq<SectionKey>, out: SectionKey -> Option<string>)
    requires forall k | k in order :: out(k).None? || out(k) == Some("")
    ensures Sections(order, out) == []
  {
    if |order| > 0 {
      assert order[0] in order;
      assert forall k | k in order[1..] :: k in order;
      SilentOrder(order[1..], out);
    }
  }

  /** With nothing to show, the README is empty. */
  lemma NothingToShow(order: seq<SectionKey>, out: SectionKey -> Option<string>, githubUser: string, showPinnedRepos: bool)
    requires Sections(order, out) == []
    ensures Assemble(order, out, githubUser, showPinnedRepos) == ""
  {
    assert JsString.IndexOf("", StatsSections.PinnedStart, 0) == None;
    assert !JsString.Contains("", StatsSections.PinnedStart);
  }

  /** Without a GitHub user, or with the pinned repositories switched off,
      the span from the first start marker to the last end marker after it
      is cut out; text without such a span is left as it is. */
  lemma PinnedRemoved(raw: string, githubUser: string, showPinnedRepos: bool, a: nat, b: nat) returns (i: nat, j: nat)
    requires githubUser == "" || !showPinnedRepos
    requires a + |StatsSections.PinnedStart| <= b <= |raw|
    requires JsString.StartsWith(raw[a..], StatsSections.PinnedStart) && JsString.StartsWith(raw[b..], StatsSections.PinnedEnd)
    ensures i <= a && b <= j && j + |StatsSections.PinnedEnd| <= |raw|
    ensures ResolvePinned(raw, githubUser, showPinnedRepos) == raw[..i] + raw[j + |StatsSections.PinnedEnd|..]
  {
    i, j := JsString.ReplaceSpanParts(raw, StatsSections.PinnedStart, StatsSections.PinnedEnd, "", a, b);
    assert raw[..i] + "" == raw[..i];
  }

  /** With a GitHub user and the pinned repositories switched on, the span
      becomes the Top Repos badge of that user, its `$` patterns expanded
      against the span; a user name without `$` goes in as it is. */
  lemma PinnedReplaced(raw: string, githubUser: string, a: nat, b: nat) returns (i: nat, j: nat)
    requires githubUser != ""
    requires a + |StatsSections.PinnedStart| <= b <= |raw|
    requires JsString.StartsWith(raw[a..], StatsSections.PinnedStart) && JsString.StartsWith(raw[b..], StatsSections.PinnedEnd)
    ensures i <= a && b <= j && j + |StatsSections.PinnedEnd| <= |raw|
    ensures ResolvePinned(raw, githubUser, true) ==
      raw[..i] + TopReposBadge(JsString.Substitute(githubUser, raw[i..j + |StatsSections.PinnedEnd|], raw[..i],
        raw[j + |StatsSections.PinnedEnd|..])) + raw[j + |StatsSections.PinnedEnd|..]
    ensures '$' !in githubUser ==>
      ResolvePinned(raw, githubUser, true) == raw[..i] + TopReposBadge(githubUser) + raw[j + |StatsSections.PinnedEnd|..] &&
      JsString.Contains(ResolvePinned(raw, githubUser, true), TopReposBadge(githubUser))
  {
    i, j := PinnedSpanReplaced(raw, githubUser, a, b);
    var m, front, back := raw[i..j + |StatsSections.PinnedEnd|], raw[..i], raw[j + |StatsSections.PinnedEnd|..];
    BadgeSubstitution(githubUser, m, front, back);
    if '$' !in githubUser {
      JsString.SubstituteLiteral(githubUser, m, front, back);
      JsString.ContainsInfix(front, TopReposBadge(githubUser), back);
    }
  }

  lemma PinnedSpanReplaced(raw: string, githubUser: string, a: nat, b: nat) returns (i: nat, j: nat)
    requires githubUser != ""
    requires a + |StatsSections.PinnedStart| <= b <= |raw|
    requires JsString.StartsWith(raw[a..], StatsSections.PinnedStart) && JsString.StartsWith(raw[b..], StatsSections.PinnedEnd)
    ensures i <= a && b <= j && j + |StatsSections.PinnedEnd| <= |raw|
    ensures ResolvePinned(raw, githubUser, true) ==
      raw[..i] + JsString.Substitute(TopReposBadge(githubUser), raw[i..j + |StatsSections.PinnedEnd|], raw[..i],
        raw[j + |StatsSections.PinnedEnd|..]) + raw[j + |StatsSections.PinnedEnd|..]
  {
    assert JsString.Contains(raw, StatsSections.PinnedStart);
    i, j := JsString.ReplaceSpanParts(raw, StatsSections.PinnedStart, StatsSections.PinnedEnd, TopReposBadge(githubUser), a, b);
  }

  /** Text without a start marker followed by an end marker keeps whatever
      it has, whatever the settings. */
  lemma NoPlaceholderKept(raw: string, githubUser: string, showPinnedRepos: bool)
    requires forall i, j | 0 <= i && i + |StatsSections.PinnedStart| <= j <= |raw| ::
      !(JsString.StartsWith(raw[i..], StatsSections.PinnedStart) && JsString.StartsWith(raw[j..], StatsSections.PinnedEnd))
    ensures ResolvePinned(raw, githubUser, showPinnedRepos) == raw
  {
    JsString.ReplaceSpanNone(raw, StatsSections.PinnedStart, StatsSections.PinnedEnd, "");
    JsString.ReplaceSpanNone(raw, StatsSections.PinnedStart, StatsSections.PinnedEnd, TopReposBadge(githubUser));
  }
}
