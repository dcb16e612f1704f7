/**
 * Turning one content box into a rendered unit: boxes without content show a placeholder,
 * boxes of a known type go to that type's renderer, and every other type shows a placeholder too.
 * The placeholder's shape depends on the box type and position only.
 */
module ContentBoxes {
  import opened Wrappers
  import opened Strings
  import opened Json

  /** A content box of the configuration. */
  datatype ContentBox = ContentBox(boxType: string, position: string, enabled: Option<bool>, content: Option<Json>)

  /** `Object.keys(c).length`: characters of a string, elements of an array, keys of an object, and none for a number or boolean. */
  function KeyCount(c: Json): (n: nat)
    ensures c.JObj? ==> n == |c.fields|
    ensures c.JStr? ==> n == |c.s|
    ensures c.JArr? ==> n == |c.items|
    ensures c.JNum? || c.JBool? || c.JNull? ==> n == 0
  {
    match c
    case JStr(s) => |s|
    case JArr(items) => |items|
    case JObj(fs) => |fs|
    case _ => 0
  }

  /** `!box.content || Object.keys(box.content).length === 0` */
  predicate EmptyContent(c: Option<Json>) {
    !TruthyOpt(c) || KeyCount(c.value) == 0
  }

  /** The renderers a box type can be dispatched to. */
  datatype Renderer = HeadlineBox | FeaturesGridBox | MetricsBox | CtaBox | AdBannerBox | AdAlertBox | AdNativeBox

  /** The box type each renderer serves. */
  function RendererType(r: Renderer): string {
    match r
    case HeadlineBox => "headline"
    case FeaturesGridBox => "features-grid"
    case MetricsBox => "metrics"
    case CtaBox => "cta"
    case AdBannerBox => "ad-banner"
    case AdAlertBox => "ad-alert"
    case AdNativeBox => "ad-native"
  }

  /** The `switch` on the box type: a renderer for the seven known types, none for the rest. */
  function RendererFor(boxType: string): (r: Option<Renderer>)
    ensures r.Some? ==> RendererType(r.value) == boxType
  {
    if boxType == "headline" then Some(HeadlineBox)
    else if boxType == "features-grid" then Some(FeaturesGridBox)
    else if boxType == "metrics" then Some(MetricsBox)
    else if boxType == "cta" then Some(CtaBox)
    else if boxType == "ad-banner" then Some(AdBannerBox)
    else if boxType == "ad-alert" then Some(AdAlertBox)
    else if boxType == "ad-native" then Some(AdNativeBox)
    else None
  }

  /** Each renderer is chosen for exactly its own type. */
  lemma RendererForType(r: Renderer)
    ensures RendererFor(RendererType(r)) == Some(r)
  {
  }

  /** What `renderContentBox` produces: a renderer given the box content and the config, or a placeholder. */
  datatype Unit<C> =
    | Rendered(renderer: Renderer, content: Json, config: C)
    | Placeholder(boxType: string, position: string, config: C)

  /** `renderContentBox(box, config)`: total, one unit per box. */
  function RenderContentBox<C>(box: ContentBox, config: C): (u: Unit<C>)
    ensures u.Rendered? <==> !EmptyContent(box.content) && RendererFor(box.boxType).Some?
    ensures u.Rendered? ==> RendererType(u.renderer) == box.boxType && box.content == Some(u.content)
    ensures u.Placeholder? ==> u.boxType == box.boxType && u.position == box.position
    ensures u.config == config
  {
    if EmptyContent(box.content) then Placeholder(box.boxType, box.position, config)
    else match RendererFor(box.boxType)
      case Some(r) => Rendered(r, box.content.value, config)
      case None => Placeholder(box.boxType, box.position, config)
  }

  /** A box with absent, falsy or key-less content always shows its own placeholder. */
  lemma EmptyBoxIsPlaceholder<C>(box: ContentBox, config: C)
    requires box.content.None? || !Truthy(box.content.value) || KeyCount(box.content.value) == 0
    ensures RenderContentBox(box, config) == Placeholder(box.boxType, box.position, config)
  {
  }

  /** A non-empty string counts as content and goes to its type's renderer. */
  lemma StringContentDispatched<C>(box: ContentBox, config: C, r: Renderer)
    requires box.content.Some? && box.content.value.JStr? && box.content.value.s != ""
    requires box.boxType == RendererType(r)
    ensures RenderContentBox(box, config) == Rendered(r, box.content.value, config)
  {
    RendererForType(r);
  }

  /** A number or boolean has no keys, so even a truthy one shows the placeholder. */
  lemma ScalarContentIsPlaceholder<C>(box: ContentBox, config: C)
    requires box.content.Some? && (box.content.value.JNum? || box.content.value.JBool?)
    ensures RenderContentBox(box, config).Placeholder?
  {
  }

  /** Types without a renderer (text, map, terminal-log, bullet-list, dynamic-feed, ...) show the placeholder. */
  lemma UnknownTypeIsPlaceholder<C>(box: ContentBox, config: C)
    requires forall r: Renderer :: box.boxType != RendererType(r)
    ensures RenderContentBox(box, config) == Placeholder(box.boxType, box.position, config)
  {
  }

  /** The placeholder variants and their item counts. */
  datatype PlaceholderView =
    | HeadlineSkeleton
    | FeatureBoxes(count: nat)
    | MetricsWidget(rows: nat)
    | CtaSkeleton
    | BannerAd
    | DynamicContent
    | NativeAds(heading: string, count: nat)
    | AlertPromo
    | Generic(boxType: string, position: string)

  /** `getPlaceholderContent`: the variant for a box type and position. */
  function PlaceholderFor(boxType: string, position: string): (v: PlaceholderView)
    ensures boxType == "features-grid" ==> v == FeatureBoxes(if position == "feature-grid" then 6 else 3)
    ensures boxType == "ad-native" ==>
      v == if Contains(position, "sidebar") then NativeAds("Sidebar Ads", 2) else NativeAds("Native Ads", 3)
    ensures boxType == "metrics" ==> v == MetricsWidget(4)
    ensures boxType == "dynamic-feed" || boxType == "main-content" ==> v == DynamicContent
    ensures v.Generic? <==> boxType !in KnownPlaceholderTypes()
    ensures v.Generic? ==> v == Generic(boxType, position)
  {
    if boxType == "headline" then HeadlineSkeleton
    else if boxType == "features-grid" then FeatureBoxes(if position == "feature-grid" then 6 else 3)
    else if boxType == "metrics" then MetricsWidget(4)
    else if boxType == "cta" then CtaSkeleton
    else if boxType == "ad-banner" then BannerAd
    else if boxType == "dynamic-feed" || boxType == "main-content" then DynamicContent
    else if boxType == "ad-native" then
      if Contains(position, "sidebar") then NativeAds("Sidebar Ads", 2) else NativeAds("Native Ads", 3)
    else if boxType == "ad-alert" then AlertPromo
    else Generic(boxType, position)
  }

  /** The box types with a placeholder of their own. */
  function KnownPlaceholderTypes(): set<string> {
    {"headline", "features-grid", "metrics", "cta", "ad-banner", "dynamic-feed", "main-content", "ad-native", "ad-alert"}
  }

  /** A rendered placeholder: its variant, and whether it uses the dark palette. */
  datatype PlaceholderBox = PlaceholderBox(view: PlaceholderView, dark: bool)

  /** `PlaceholderBox({type, position, config})`: the colour mode picks the palette and nothing else. */
  function RenderPlaceholder(boxType: string, position: string, colorMode: Option<Json>): (p: PlaceholderBox)
    ensures p.view == PlaceholderFor(boxType, position)
    ensures p.dark <==> colorMode == Some(JStr("dark"))
  {
    PlaceholderBox(PlaceholderFor(boxType, position), colorMode == Some(JStr("dark")))
  }

  /** Light and dark placeholders of a box differ only in their palette. */
  lemma ColorModeKeepsView(boxType: string, position: string, m1: Option<Json>, m2: Option<Json>)
    ensures RenderPlaceholder(boxType, position, m1).view == RenderPlaceholder(boxType, position, m2).view
  {
  }
}
