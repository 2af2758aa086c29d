/** Partial versions of the nested configuration records and the shallow
    merge `{ ...config, ...patch }`: a key the patch holds replaces the
    config's value, every other key keeps it. The single-field editors
    (`{ ...config, [field]: value }`) are patches with one key set. */
module Patches {
  import opened Wrappers
  import opened Types

  datatype MainHeaderPatch = MainHeaderPatch(
    enabled: Option<bool>, title: Option<string>, subtitle: Option<string>,
    aiPrompt: Option<string>, aiStyle: Option<string>, aiEffect: Option<string>,
    aiColor: Option<string>, aiMotion: Option<string>,
    aiAspectRatio: Option<AspectRatio>, generatedImageUrl: Option<string>)
  {
    predicate IsEmpty()
    {
      enabled.None? && title.None? && subtitle.None? && aiPrompt.None? && aiStyle.None?
      && aiEffect.None? && aiColor.None? && aiMotion.None? && aiAspectRatio.None?
      && generatedImageUrl.None?
    }

    /** `{ ...c, ...this }` */
    function ApplyTo(c: MainHeaderConfig): (r: MainHeaderConfig)
      ensures enabled.Some? ==> r.enabled == enabled.value
      ensures enabled.None? ==> r.enabled == c.enabled
      ensures title.Some? ==> r.title == title.value
      ensures title.None? ==> r.title == c.title
      ensures subtitle.Some? ==> r.subtitle == subtitle.value
      ensures subtitle.None? ==> r.subtitle == c.subtitle
      ensures aiPrompt.Some? ==> r.aiPrompt == aiPrompt.value
      ensures aiPrompt.None? ==> r.aiPrompt == c.aiPrompt
      ensures aiStyle.Some? ==> r.aiStyle == aiStyle.value
      ensures aiStyle.None? ==> r.aiStyle == c.aiStyle
      ensures aiEffect.Some? ==> r.aiEffect == aiEffect.value
      ensures aiEffect.None? ==> r.aiEffect == c.aiEffect
      ensures aiColor.Some? ==> r.aiColor == aiColor.value
      ensures aiColor.None? ==> r.aiColor == c.aiColor
      ensures aiMotion.Some? ==> r.aiMotion == aiMotion.value
      ensures aiMotion.None? ==> r.aiMotion == c.aiMotion
      ensures aiAspectRatio.Some? ==> r.aiAspectRatio == aiAspectRatio.value
      ensures aiAspectRatio.None? ==> r.aiAspectRatio == c.aiAspectRatio
      ensures generatedImageUrl.Some? ==> r.generatedImageUrl == generatedImageUrl.value
      ensures generatedImageUrl.None? ==> r.generatedImageUrl == c.generatedImageUrl
    {
      MainHeaderConfig(
        enabled.GetOr(c.enabled), title.GetOr(c.title), subtitle.GetOr(c.subtitle),
        aiPrompt.GetOr(c.aiPrompt), aiStyle.GetOr(c.aiStyle), aiEffect.GetOr(c.aiEffect),
        aiColor.GetOr(c.aiColor), aiMotion.GetOr(c.aiMotion),
        aiAspectRatio.GetOr(c.aiAspectRatio), generatedImageUrl.GetOr(c.generatedImageUrl))
    }
  }

  /** The patch that sets every key of `c`. */
  function FullMainHeader(c: MainHeaderConfig): MainHeaderPatch
  {
    MainHeaderPatch(
      Some(c.enabled), Some(c.title), Some(c.subtitle), Some(c.aiPrompt), Some(c.aiStyle),
      Some(c.aiEffect), Some(c.aiColor), Some(c.aiMotion), Some(c.aiAspectRatio),
      Some(c.generatedImageUrl))
  }

  datatype ProfileHeaderPatch = ProfileHeaderPatch(
    enabled: Option<bool>, title: Option<string>, subtitle: Option<string>, background: Option<string>)
  {
    predicate IsEmpty()
    {
      enabled.None? && title.None? && subtitle.None? && background.None?
    }

    /** `{ ...c, ...this }` */
    function ApplyTo(c: ProfileHeaderConfig): (r: ProfileHeaderConfig)
      ensures enabled.Some? ==> r.enabled == enabled.value
      ensures enabled.None? ==> r.enabled == c.enabled
      ensures title.Some? ==> r.title == title.value
      ensures title.None? ==> r.title == c.title
      ensures subtitle.Some? ==> r.subtitle == subtitle.value
      ensures subtitle.None? ==> r.subtitle == c.subtitle
      ensures background.Some? ==> r.background == background.value
      ensures background.None? ==> r.background == c.background
    {
      ProfileHeaderConfig(enabled.GetOr(c.enabled), title.GetOr(c.title),
        subtitle.GetOr(c.subtitle), background.GetOr(c.background))
    }
  }

  datatype SocialIconStylePatch = SocialIconStylePatch(
    size: Option<int>, backgroundColor: Option<string>, borderWidth: Option<int>,
    borderColor: Option<string>, borderRadius: Option<int>)
  {
    predicate IsEmpty()
    {
      size.None? && backgroundColor.None? && borderWidth.None? && borderColor.None? && borderRadius.None?
    }

    /** `{ ...c, ...this }` */
    function ApplyTo(c: SocialIconStyle): (r: SocialIconStyle)
      ensures size.Some? ==> r.size == size.value
      ensures size.None? ==> r.size == c.size
      ensures backgroundColor.Some? ==> r.backgroundColor == backgroundColor.value
      ensures backgroundColor.None? ==> r.backgroundColor == c.backgroundColor
      ensures borderWidth.Some? ==> r.borderWidth == borderWidth.value
      ensures borderWidth.None? ==> r.borderWidth == c.borderWidth
      ensures borderColor.Some? ==> r.borderColor == borderColor.value
      ensures borderColor.None? ==> r.borderColor == c.borderColor
      ensures borderRadius.Some? ==> r.borderRadius == borderRadius.value
      ensures borderRadius.None? ==> r.borderRadius == c.borderRadius
    {
      SocialIconStyle(size.GetOr(c.size), backgroundColor.GetOr(c.backgroundColor),
        borderWidth.GetOr(c.borderWidth), borderColor.GetOr(c.borderColor),
        borderRadius.GetOr(c.borderRadius))
    }
  }

  datatype SectionStylePatch = SectionStylePatch(
    style: Option<CardStyle>, cardBackgroundColor: Option<string>,
    cardBorderColor: Option<string>, cardBorderRadius: Option<int>)
  {
    predicate IsEmpty()
    {
      style.None? && cardBackgroundColor.None? && cardBorderColor.None? && cardBorderRadius.None?
    }

    /** `{ ...c, ...this }` */
    function ApplyTo(c: SectionStyleConfig): (r: SectionStyleConfig)
      ensures style.Some? ==> r.style == style.value
      ensures style.None? ==> r.style == c.style
      ensures cardBackgroundColor.Some? ==> r.cardBackgroundColor == cardBackgroundColor.value
      ensures cardBackgroundColor.None? ==> r.cardBackgroundColor == c.cardBackgroundColor
      ensures cardBorderColor.Some? ==> r.cardBorderColor == cardBorderColor.value
      ensures cardBorderColor.None? ==> r.cardBorderColor == c.cardBorderColor
      ensures cardBorderRadius.Some? ==> r.cardBorderRadius == cardBorderRadius.value
      ensures cardBorderRadius.None? ==> r.cardBorderRadius == c.cardBorderRadius
    {
      SectionStyleConfig(style.GetOr(c.style), cardBackgroundColor.GetOr(c.cardBackgroundColor),
        cardBorderColor.GetOr(c.cardBorderColor), cardBorderRadius.GetOr(c.cardBorderRadius))
    }
  }

  datatype AdvancedMetricsPatch = AdvancedMetricsPatch(
    languages: Option<bool>, habits: Option<bool>, isocalendar: Option<bool>, skyline: Option<bool>)
  {
    function Get(m: Metric): Option<bool>
    {
      match m
      case MetricLanguages => languages
      case MetricHabits => habits
      case MetricIsocalendar => isocalendar
      case MetricSkyline => skyline
    }

    /** `{ ...c, ...this }` */
    function ApplyTo(c: AdvancedMetrics): (r: AdvancedMetrics)
      ensures forall m :: Get(m).Some? ==> r.Get(m) == Get(m).value
      ensures forall m :: Get(m).None? ==> r.Get(m) == c.Get(m)
    {
      AdvancedMetrics(languages.GetOr(c.languages), habits.GetOr(c.habits),
        isocalendar.GetOr(c.isocalendar), skyline.GetOr(c.skyline))
    }
  }

  // ---------------------------------------------------------------------
  // Laws of the shallow merge
  // ---------------------------------------------------------------------

  /** Merging nothing changes nothing; merging the same patch twice is
      merging it once; a patch that sets every key replaces the config; two
      merges in a row are one merge whose later keys win. */
  lemma MainHeaderMergeLaws(p: MainHeaderPatch, q: MainHeaderPatch, c: MainHeaderConfig, x: MainHeaderConfig)
    ensures p.IsEmpty() ==> p.ApplyTo(c) == c
    ensures p.ApplyTo(p.ApplyTo(c)) == p.ApplyTo(c)
    ensures FullMainHeader(x).ApplyTo(c) == x
    ensures q.ApplyTo(p.ApplyTo(c)) == ThenMainHeader(p, q).ApplyTo(c)
  {
  }

  /** The patch `{ ...p, ...q }`. */
  function ThenMainHeader(p: MainHeaderPatch, q: MainHeaderPatch): (r: MainHeaderPatch)
  {
    MainHeaderPatch(
      Or(q.enabled, p.enabled), Or(q.title, p.title), Or(q.subtitle, p.subtitle),
      Or(q.aiPrompt, p.aiPrompt), Or(q.aiStyle, p.aiStyle), Or(q.aiEffect, p.aiEffect),
      Or(q.aiColor, p.aiColor), Or(q.aiMotion, p.aiMotion),
      Or(q.aiAspectRatio, p.aiAspectRatio), Or(q.generatedImageUrl, p.generatedImageUrl))
  }

  function Or<T>(a: Option<T>, b: Option<T>): Option<T>
  {
    if a.Some? then a else b
  }

  lemma ProfileHeaderMergeLaws(p: ProfileHeaderPatch, c: ProfileHeaderConfig)
    ensures p.IsEmpty() ==> p.ApplyTo(c) == c
    ensures p.ApplyTo(p.ApplyTo(c)) == p.ApplyTo(c)
  {
  }

  lemma SocialIconStyleMergeLaws(p: SocialIconStylePatch, c: SocialIconStyle)
    ensures p.IsEmpty() ==> p.ApplyTo(c) == c
    ensures p.ApplyTo(p.ApplyTo(c)) == p.ApplyTo(c)
  {
  }

  lemma SectionStyleMergeLaws(p: SectionStylePatch, c: SectionStyleConfig)
    ensures p.IsEmpty() ==> p.ApplyTo(c) == c
    ensures p.ApplyTo(p.ApplyTo(c)) == p.ApplyTo(c)
  {
  }
}
