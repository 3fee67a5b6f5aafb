/**
 * The rule battery of the audit. Every check of the engine computes one or
 * more values from the page (the `const`s of its block) and then tests them
 * against fixed thresholds; `Measure` computes all the values, and one rule
 * function per check makes the decision, yielding at most one finding.
 */
module Rules {
  import opened Wrappers
  import opened JsString
  import opened Messages
  import opened PageModel
  import WordCount

  /** The values the checks test, named as the engine names them. */
  datatype Measures = Measures(
    title: string,
    metaDescription: Option<string>,
    h1Count: nat,
    imagesWithoutAlt: nat,
    wordCount: nat,
    ogTitle: Option<string>,
    ogDescription: Option<string>,
    ogImage: Option<string>,
    canonical: Option<string>,
    finalUrl: string,
    viewport: Option<string>,
    robots: Option<string>,
    h2Count: nat,
    brokenLinks: nat,
    htmlLang: Option<string>,
    charset: bool,
    h1Text: string,
    externalLinksWithoutRel: nat,
    inlineStyles: nat,
    hasSchema: bool,
    twitterCard: Option<string>,
    favicon: bool
  )

  /** The first H1's text, trimmed; only read when the page has an H1. */
  function FirstH1Text(page: Page): string {
    if |page.h1Texts| > 0 then Trim(page.h1Texts[0]) else ""
  }

  /** Every value the checks compute from the page and the final URL. */
  function Measure(page: Page, finalUrl: string): Measures {
    Measures(
      page.title,
      page.metaDescription,
      |page.h1Texts|,
      ImagesWithoutAlt(page),
      WordCount.WordCount(page.bodyText),
      page.ogTitle, page.ogDescription, page.ogImage,
      page.canonical,
      finalUrl,
      page.viewport,
      page.robots,
      page.h2Count,
      PlaceholderLinkCount(page),
      page.htmlLang,
      page.charsetMetaCount > 0 || page.contentTypeMetaCount > 0,
      FirstH1Text(page),
      ExternalLinkCount(page, finalUrl),
      page.styledElementCount,
      page.ldJsonScriptCount > 0 || page.itemscopeCount > 0,
      page.twitterCard,
      page.faviconLinkCount > 0)
  }

  function TitleRule(m: Measures): Option<Message> {
    if m.title == "" then Some(MissingTitleTag)
    else if CodeUnits(m.title) > 60 then Some(ShortenTitle)
    else if CodeUnits(m.title) < 30 then Some(LengthenTitle)
    else None
  }

  function MetaDescriptionRule(m: Measures): Option<Message> {
    var d := m.metaDescription;
    if Missing(d) then Some(MissingMetaDescription)
    else if CodeUnits(d.value) > 160 then Some(MetaDescriptionTooLong)
    else if CodeUnits(d.value) < 120 then Some(LengthenMetaDescription)
    else None
  }

  function H1CountRule(m: Measures): Option<Message> {
    if m.h1Count == 0 then Some(MissingH1) else if m.h1Count > 1 then Some(MultipleH1(m.h1Count)) else None
  }

  function ImageAltRule(m: Measures): Option<Message> {
    if m.imagesWithoutAlt > 0 then Some(MissingAltText(m.imagesWithoutAlt)) else None
  }

  function WordCountRule(m: Measures): Option<Message> {
    if m.wordCount < 100 then Some(ThinContent(m.wordCount))
    else if m.wordCount < 300 then Some(ShortContent(m.wordCount))
    else None
  }

  function OpenGraphRule(m: Measures): Option<Message> {
    if Missing(m.ogTitle) || Missing(m.ogDescription) || Missing(m.ogImage)
    then Some(MissingOpenGraph) else None
  }

  function CanonicalRule(m: Measures): Option<Message> {
    if Missing(m.canonical) then Some(MissingCanonical) else None
  }

  function HttpsRule(m: Measures): Option<Message> {
    if !StartsWith(m.finalUrl, "https://") then Some(NotHttps) else None
  }

  function ViewportRule(m: Measures): Option<Message> {
    if Missing(m.viewport) then Some(MissingViewport) else None
  }

  function RobotsRule(m: Measures): Option<Message> {
    var r := m.robots;
    if !Missing(r) && (Includes(r.value, "noindex") || Includes(r.value, "nofollow"))
    then Some(RestrictiveRobots(r.value)) else None
  }

  /** Reads the H1 count of the H1 check: only a page with an H1 is asked for H2s. */
  function H2Rule(m: Measures): Option<Message> {
    if m.h1Count > 0 && m.h2Count == 0 then Some(MissingH2) else None
  }

  function PlaceholderLinkRule(m: Measures): Option<Message> {
    if m.brokenLinks > 0 then Some(PlaceholderLinks(m.brokenLinks)) else None
  }

  function LangRule(m: Measures): Option<Message> {
    if Missing(m.htmlLang) then Some(MissingLang) else None
  }

  function CharsetRule(m: Measures): Option<Message> {
    if !m.charset then Some(MissingCharset) else None
  }

  /** Only the H1 side is trimmed; the title is compared as it stands. */
  function TitleH1Rule(m: Measures): Option<Message> {
    if m.title != "" && m.h1Count > 0 && ToLowerCase(m.title) == ToLowerCase(m.h1Text)
    then Some(TitleEqualsH1) else None
  }

  function ExternalLinkRule(m: Measures): Option<Message> {
    if m.externalLinksWithoutRel > 0 then Some(ExternalLinksWithoutRel(m.externalLinksWithoutRel)) else None
  }

  function InlineStyleRule(m: Measures): Option<Message> {
    if m.inlineStyles > 20 then Some(InlineStyles(m.inlineStyles)) else None
  }

  function StructuredDataRule(m: Measures): Option<Message> {
    if !m.hasSchema then Some(MissingStructuredData) else None
  }

  function TwitterCardRule(m: Measures): Option<Message> {
    if Missing(m.twitterCard) then Some(MissingTwitterCard) else None
  }

  function FaviconRule(m: Measures): Option<Message> {
    if !m.favicon then Some(MissingFavicon) else None
  }

  /** The outcome of each check, by check. */
  datatype Findings = Findings(
    title: Option<Message>,
    metaDescription: Option<Message>,
    h1Count: Option<Message>,
    imageAlt: Option<Message>,
    wordCount: Option<Message>,
    openGraph: Option<Message>,
    canonical: Option<Message>,
    https: Option<Message>,
    viewport: Option<Message>,
    robots: Option<Message>,
    h2: Option<Message>,
    placeholderLinks: Option<Message>,
    lang: Option<Message>,
    charset: Option<Message>,
    titleH1: Option<Message>,
    externalLinks: Option<Message>,
    inlineStyles: Option<Message>,
    structuredData: Option<Message>,
    twitterCard: Option<Message>,
    favicon: Option<Message>
  )

  /** Every check run on the measured page. */
  function Evaluate(m: Measures): Findings {
    Findings(
      TitleRule(m), MetaDescriptionRule(m), H1CountRule(m), ImageAltRule(m), WordCountRule(m), OpenGraphRule(m), CanonicalRule(m), HttpsRule(m), ViewportRule(m), RobotsRule(m), H2Rule(m), PlaceholderLinkRule(m), LangRule(m), CharsetRule(m), TitleH1Rule(m), ExternalLinkRule(m), InlineStyleRule(m), StructuredDataRule(m), TwitterCardRule(m), FaviconRule(m))
  }

  /** The number of checks in the battery. */
  const RuleCount := 20

  /** The position of a check in the battery. */
  type RuleIndex = k: nat | k < RuleCount

  /** The outcome of the check at position `k`, in the order the engine runs them. */
  function Rule(k: RuleIndex, f: Findings): Option<Message> {
    match k
    case 0 => f.title
    case 1 => f.metaDescription
    case 2 => f.h1Count
    case 3 => f.imageAlt
    case 4 => f.wordCount
    case 5 => f.openGraph
    case 6 => f.canonical
    case 7 => f.https
    case 8 => f.viewport
    case 9 => f.robots
    case 10 => f.h2
    case 11 => f.placeholderLinks
    case 12 => f.lang
    case 13 => f.charset
    case 14 => f.titleH1
    case 15 => f.externalLinks
    case 16 => f.inlineStyles
    case 17 => f.structuredData
    case 18 => f.twitterCard
    case _ => f.favicon
  }

  /** The outcomes of the first `n` checks, in evaluation order. */
  function RulesBefore(f: Findings, n: nat): (fs: seq<Option<Message>>)
    requires n <= RuleCount
    ensures |fs| == n
  {
    if n == 0 then [] else RulesBefore(f, n - 1) + [Rule(n - 1, f)]
  }

  /** The outcome of every check, in evaluation order. */
  function RuleOutcomes(f: Findings): seq<Option<Message>> {
    RulesBefore(f, RuleCount)
  }

  /** Which check can produce a message; the fetch errors come from no check. */
  function Origin(x: Message): Option<RuleIndex> {
    match x
    case MissingTitleTag | ShortenTitle | LengthenTitle => Some(0)
    case MissingMetaDescription | MetaDescriptionTooLong | LengthenMetaDescription => Some(1)
    case MissingH1 | MultipleH1(_) => Some(2)
    case MissingAltText(_) => Some(3)
    case ThinContent(_) | ShortContent(_) => Some(4)
    case MissingOpenGraph => Some(5)
    case MissingCanonical => Some(6)
    case NotHttps => Some(7)
    case MissingViewport => Some(8)
    case RestrictiveRobots(_) => Some(9)
    case MissingH2 => Some(10)
    case PlaceholderLinks(_) => Some(11)
    case MissingLang => Some(12)
    case MissingCharset => Some(13)
    case TitleEqualsH1 => Some(14)
    case ExternalLinksWithoutRel(_) => Some(15)
    case InlineStyles(_) => Some(16)
    case MissingStructuredData => Some(17)
    case MissingTwitterCard => Some(18)
    case MissingFavicon => Some(19)
    case HttpStatus(_, _) | RequestTimeout | DomainNotFound | FetchFailed(_) => None
  }

  /** Exactly the fetch errors come from no check. */
  lemma OriginOfError(x: Message)
    ensures Origin(x).None? <==> SeverityOf(x) == Error
  {
  }

  /** The outcomes of the first `j` checks begin the outcomes of the first `n`. */
  lemma {:induction false} RulesBeforePrefix(f: Findings, j: nat, n: nat)
    requires j <= n <= RuleCount
    ensures RulesBefore(f, j) == RulesBefore(f, n)[..j]
  {
    if j < n {
      RulesBeforePrefix(f, j, n - 1);
      assert RulesBefore(f, n)[..n - 1] == RulesBefore(f, n - 1);
    }
  }

  /** Position `k` of the outcome list is the outcome of check `k`. */
  lemma {:induction false} RulesBeforeAt(f: Findings, n: nat, k: nat)
    requires k < n <= RuleCount
    ensures RulesBefore(f, n)[k] == Rule(k, f)
  {
    if k < n - 1 {
      RulesBeforeAt(f, n - 1, k);
    }
  }

  /** An outcome that, when present, is a message check `k` can produce. */
  predicate FromCheck(o: Option<Message>, k: RuleIndex) {
    o.Some? ==> Origin(o.value) == Some(k)
  }

  /** Every outcome of the record is a message of its own check. */
  predicate Attributed(f: Findings) {
    FromCheck(f.title, 0)
    && FromCheck(f.metaDescription, 1)
    && FromCheck(f.h1Count, 2)
    && FromCheck(f.imageAlt, 3)
    && FromCheck(f.wordCount, 4)
    && FromCheck(f.openGraph, 5)
    && FromCheck(f.canonical, 6)
    && FromCheck(f.https, 7)
    && FromCheck(f.viewport, 8)
    && FromCheck(f.robots, 9)
    && FromCheck(f.h2, 10)
    && FromCheck(f.placeholderLinks, 11)
    && FromCheck(f.lang, 12)
    && FromCheck(f.charset, 13)
    && FromCheck(f.titleH1, 14)
    && FromCheck(f.externalLinks, 15)
    && FromCheck(f.inlineStyles, 16)
    && FromCheck(f.structuredData, 17)
    && FromCheck(f.twitterCard, 18)
    && FromCheck(f.favicon, 19)
  }

  /** The title, description, heading, image and content checks report only their own messages. */
  lemma PageTextChecksAttributed(m: Measures)
    ensures FromCheck(TitleRule(m), 0)
    ensures FromCheck(MetaDescriptionRule(m), 1)
    ensures FromCheck(H1CountRule(m), 2)
    ensures FromCheck(ImageAltRule(m), 3)
    ensures FromCheck(WordCountRule(m), 4)
  {
  }

  /** The Open Graph, canonical, HTTPS, viewport and robots checks report only their own messages. */
  lemma MetadataChecksAttributed(m: Measures)
    ensures FromCheck(OpenGraphRule(m), 5)
    ensures FromCheck(CanonicalRule(m), 6)
    ensures FromCheck(HttpsRule(m), 7)
    ensures FromCheck(ViewportRule(m), 8)
    ensures FromCheck(RobotsRule(m), 9)
  {
  }

  /** The H2, placeholder link, lang, charset and title/H1 checks report only their own messages. */
  lemma StructureChecksAttributed(m: Measures)
    ensures FromCheck(H2Rule(m), 10)
    ensures FromCheck(PlaceholderLinkRule(m), 11)
    ensures FromCheck(LangRule(m), 12)
    ensures FromCheck(CharsetRule(m), 13)
    ensures FromCheck(TitleH1Rule(m), 14)
  {
  }

  /** The external link, inline style, structured data, Twitter Card and favicon checks report only their own messages. */
  lemma MarkupChecksAttributed(m: Measures)
    ensures FromCheck(ExternalLinkRule(m), 15)
    ensures FromCheck(InlineStyleRule(m), 16)
    ensures FromCheck(StructuredDataRule(m), 17)
    ensures FromCheck(TwitterCardRule(m), 18)
    ensures FromCheck(FaviconRule(m), 19)
  {
  }

  /** Every check reports only messages of its own kind. */
  lemma EvaluateAttributed(m: Measures)
    ensures Attributed(Evaluate(m))
  {
    PageTextChecksAttributed(m);
    MetadataChecksAttributed(m);
    StructureChecksAttributed(m);
    MarkupChecksAttributed(m);
  }

  lemma AttributedOrigin(f: Findings, k: RuleIndex)
    requires Attributed(f) && Rule(k, f).Some?
    ensures Origin(Rule(k, f).value) == Some(k)
  {
  }

  /** A message is among the outcomes exactly when the one check that can produce it does. */
  lemma InOutcomes(m: Measures, x: Message)
    ensures Some(x) in RuleOutcomes(Evaluate(m)) <==>
      Origin(x).Some? && Rule(Origin(x).value, Evaluate(m)) == Some(x)
  {
    var f := Evaluate(m);
    var fs := RuleOutcomes(f);
    if Some(x) in fs {
      var i :| 0 <= i < |fs| && fs[i] == Some(x);
      RulesBeforeAt(f, RuleCount, i);
      EvaluateAttributed(m);
      AttributedOrigin(f, i);
    }
    if Origin(x).Some? && Rule(Origin(x).value, f) == Some(x) {
      RulesBeforeAt(f, RuleCount, Origin(x).value);
    }
  }
}
