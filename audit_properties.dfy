/**
 * What a report says about the page, check by check. Each lemma relates the
 * findings of a run to the page facts alone, through the one check that can
 * produce each message; the last ones describe the error bucket on the three
 * ways a run ends.
 */
module AuditProperties {
  import opened Wrappers
  import opened JsString
  import opened Messages
  import opened PageModel
  import opened Report
  import opened Rules
  import opened SeoChecker
  import WordCount
  import Url

  /**
   * The report of a run that no fault interrupts, over the values its checks
   * compute. This is `Audit` on an uninterrupted run with the page measuring
   * factored out: lemmas stated over `Measures` keep the solver from unfolding
   * `Measure`, which `CompletedAudit` then supplies.
   */
  function Completed(m: Measures): Buckets<Message> {
    Collect(RuleOutcomes(Evaluate(m)))
  }

  /**
   * A run that no fault interrupts reports the checks on the page measured
   * against the URL of the response, or against the requested URL when the
   * response names none.
   */
  lemma CompletedAudit(url: string, responseUrl: Option<string>, page: Page)
    ensures Missing(responseUrl) ==> Audit(url, Fetched(responseUrl, page, None)) == Completed(Measure(page, url))
    ensures !Missing(responseUrl) ==>
      Audit(url, Fetched(responseUrl, page, None)) == Completed(Measure(page, responseUrl.value))
  {
  }

  /**
   * A message is in a bucket exactly when it has that bucket's severity and the
   * one check that can produce it, whose outcome is `o`, yields it.
   */
  lemma Reported(m: Measures, x: Message, k: RuleIndex, o: Option<Message>)
    requires Origin(x) == Some(k) && o == Rule(k, Evaluate(m))
    ensures x in Completed(m).warnings <==> SeverityOf(x) == Warning && o == Some(x)
    ensures x in Completed(m).criticalIssues <==> SeverityOf(x) == Critical && o == Some(x)
    ensures x in Completed(m).recommendations <==> SeverityOf(x) == Recommendation && o == Some(x)
  {
    var f := Evaluate(m);
    var fs := RuleOutcomes(f);
    EvaluateAttributed(m);
    InSelect(fs, Warning, x);
    InSelect(fs, Critical, x);
    InSelect(fs, Recommendation, x);
    if Some(x) in fs {
      var i :| 0 <= i < |fs| && fs[i] == Some(x);
      RulesBeforeAt(f, RuleCount, i);
      AttributedOrigin(f, i);
    }
    if o == Some(x) {
      RulesBeforeAt(f, RuleCount, k);
    }
  }

  /** The title check: missing, too long or too short, and silent from 30 to 60 code units. */
  lemma TitleFindings(m: Measures)
    ensures MissingTitleTag in Completed(m).criticalIssues <==> m.title == ""
    ensures ShortenTitle in Completed(m).warnings <==> m.title != "" && CodeUnits(m.title) > 60
    ensures LengthenTitle in Completed(m).recommendations <==> m.title != "" && CodeUnits(m.title) < 30
  {
    Reported(m, MissingTitleTag, 0, Evaluate(m).title);
    Reported(m, ShortenTitle, 0, Evaluate(m).title);
    Reported(m, LengthenTitle, 0, Evaluate(m).title);
  }

  /** The meta description check, with an absent and an empty description treated alike. */
  lemma MetaDescriptionFindings(m: Measures)
    ensures MissingMetaDescription in Completed(m).criticalIssues <==> Missing(m.metaDescription)
    ensures MetaDescriptionTooLong in Completed(m).warnings <==>
      !Missing(m.metaDescription) && CodeUnits(m.metaDescription.value) > 160
    ensures LengthenMetaDescription in Completed(m).recommendations <==>
      !Missing(m.metaDescription) && CodeUnits(m.metaDescription.value) < 120
  {
    Reported(m, MissingMetaDescription, 1, Evaluate(m).metaDescription);
    Reported(m, MetaDescriptionTooLong, 1, Evaluate(m).metaDescription);
    Reported(m, LengthenMetaDescription, 1, Evaluate(m).metaDescription);
  }

  /** The H1 check: none is critical, several is a warning that names their number, exactly one is silent. */
  lemma H1Findings(m: Measures, n: nat)
    ensures MissingH1 in Completed(m).criticalIssues <==> m.h1Count == 0
    ensures MultipleH1(n) in Completed(m).warnings <==> n == m.h1Count && n > 1
  {
    Reported(m, MissingH1, 2, Evaluate(m).h1Count);
    Reported(m, MultipleH1(n), 2, Evaluate(m).h1Count);
  }

  /** The alt text advice carries the number of images without alt text, and only a positive number is reported. */
  lemma ImageAltFinding(m: Measures, n: nat)
    ensures MissingAltText(n) in Completed(m).recommendations <==> n == m.imagesWithoutAlt && n > 0
  {
    Reported(m, MissingAltText(n), 3, Evaluate(m).imageAlt);
  }

  /** The content check reports the word count when it is below 300: below 100 as critical. */
  lemma ContentFindings(m: Measures, n: nat)
    ensures ThinContent(n) in Completed(m).criticalIssues <==> n == m.wordCount && n < 100
    ensures ShortContent(n) in Completed(m).recommendations <==> n == m.wordCount && 100 <= n < 300
  {
    Reported(m, ThinContent(n), 4, Evaluate(m).wordCount);
    Reported(m, ShortContent(n), 4, Evaluate(m).wordCount);
  }

  /** The Open Graph advice: any of the three tags missing or empty. */
  lemma OpenGraphFinding(m: Measures)
    ensures MissingOpenGraph in Completed(m).recommendations <==>
      Missing(m.ogTitle) || Missing(m.ogDescription) || Missing(m.ogImage)
  {
    Reported(m, MissingOpenGraph, 5, Evaluate(m).openGraph);
  }

  /** The canonical link advice. */
  lemma CanonicalFinding(m: Measures)
    ensures MissingCanonical in Completed(m).recommendations <==> Missing(m.canonical)
  {
    Reported(m, MissingCanonical, 6, Evaluate(m).canonical);
  }

  /** The HTTPS check tests the prefix of the final URL, after redirects. */
  lemma HttpsFinding(m: Measures)
    ensures NotHttps in Completed(m).warnings <==> !StartsWith(m.finalUrl, "https://")
  {
    Reported(m, NotHttps, 7, Evaluate(m).https);
  }

  /** The viewport check. */
  lemma ViewportFinding(m: Measures)
    ensures MissingViewport in Completed(m).warnings <==> Missing(m.viewport)
  {
    Reported(m, MissingViewport, 8, Evaluate(m).viewport);
  }

  /** The robots check quotes the directive it objects to: one that contains noindex or nofollow. */
  lemma RobotsFinding(m: Measures, d: string)
    ensures RestrictiveRobots(d) in Completed(m).warnings <==>
      m.robots == Some(d) && d != "" && (Includes(d, "noindex") || Includes(d, "nofollow"))
  {
    Reported(m, RestrictiveRobots(d), 9, Evaluate(m).robots);
  }

  /** The H2 advice is given only to a page that has an H1 and no H2. */
  lemma H2Finding(m: Measures)
    ensures MissingH2 in Completed(m).recommendations <==> m.h1Count > 0 && m.h2Count == 0
  {
    Reported(m, MissingH2, 10, Evaluate(m).h2);
  }

  /** The placeholder link warning carries the number of such links, and only a positive number is reported. */
  lemma PlaceholderLinkFinding(m: Measures, n: nat)
    ensures PlaceholderLinks(n) in Completed(m).warnings <==> n == m.brokenLinks && n > 0
  {
    Reported(m, PlaceholderLinks(n), 11, Evaluate(m).placeholderLinks);
  }

  /** The language attribute advice. */
  lemma LangFinding(m: Measures)
    ensures MissingLang in Completed(m).recommendations <==> Missing(m.htmlLang)
  {
    Reported(m, MissingLang, 12, Evaluate(m).lang);
  }

  /** The character set warning; either kind of declaration satisfies it. */
  lemma CharsetFinding(m: Measures)
    ensures MissingCharset in Completed(m).warnings <==> !m.charset
  {
    Reported(m, MissingCharset, 13, Evaluate(m).charset);
  }

  /** The title/H1 advice: the case-blind comparison of the title with the first H1's text. */
  lemma TitleH1Finding(m: Measures)
    ensures TitleEqualsH1 in Completed(m).recommendations <==>
      m.title != "" && m.h1Count > 0 && ToLowerCase(m.title) == ToLowerCase(m.h1Text)
  {
    Reported(m, TitleEqualsH1, 14, Evaluate(m).titleH1);
  }

  /** The external link advice carries the number of such links, and only a positive number is reported. */
  lemma ExternalLinkFinding(m: Measures, n: nat)
    ensures ExternalLinksWithoutRel(n) in Completed(m).recommendations <==>
      n == m.externalLinksWithoutRel && n > 0
  {
    Reported(m, ExternalLinksWithoutRel(n), 15, Evaluate(m).externalLinks);
  }

  /** The inline style advice carries the number of styled elements, reported above 20 only. */
  lemma InlineStyleFinding(m: Measures, n: nat)
    ensures InlineStyles(n) in Completed(m).recommendations <==> n == m.inlineStyles && n > 20
  {
    Reported(m, InlineStyles(n), 16, Evaluate(m).inlineStyles);
  }

  /** The structured data advice; either kind of markup satisfies it. */
  lemma StructuredDataFinding(m: Measures)
    ensures MissingStructuredData in Completed(m).recommendations <==> !m.hasSchema
  {
    Reported(m, MissingStructuredData, 17, Evaluate(m).structuredData);
  }

  /** The Twitter Card advice. */
  lemma TwitterCardFinding(m: Measures)
    ensures MissingTwitterCard in Completed(m).recommendations <==> Missing(m.twitterCard)
  {
    Reported(m, MissingTwitterCard, 18, Evaluate(m).twitterCard);
  }

  /** The favicon advice. */
  lemma FaviconFinding(m: Measures)
    ensures MissingFavicon in Completed(m).recommendations <==> !m.favicon
  {
    Reported(m, MissingFavicon, 19, Evaluate(m).favicon);
  }

  /** A run that no fault interrupts reports no error. */
  lemma CompletedHasNoErrors(m: Measures)
    ensures Completed(m).errors == []
  {
    var f := Evaluate(m);
    var fs := RuleOutcomes(f);
    EvaluateAttributed(m);
    forall i | 0 <= i < |fs| && fs[i].Some?
      ensures SeverityOf(fs[i].value) != Error
    {
      RulesBeforeAt(f, RuleCount, i);
      AttributedOrigin(f, i);
      OriginOfError(fs[i].value);
    }
    SelectEmpty(fs, Error);
  }

  /** A fetch that fails reports exactly one error, its classification, and no finding of any check. */
  lemma FailedFetchReport(url: string, e: Fault)
    ensures Audit(url, Threw(e)) == Buckets([Classify(e)], [], [], [])
    ensures Render(Audit(url, Threw(e))) == Buckets([Text(Classify(e))], [], [], [])
  {
    var c := Classify(e);
    FailedFetchBuckets(AuditOutcomes(url, Threw(e)), c);
    RenderSingleError(c);
  }

  /** The report of the single outcome `Some(c)`, for an error `c`. */
  lemma FailedFetchBuckets(fs: seq<Option<Message>>, c: Message)
    requires fs == [Some(c)] && SeverityOf(c) == Error
    ensures Collect(fs) == Buckets([c], [], [], [])
  {
    assert fs == [] + [Some(c)];
    SelectSnoc([], Some(c), Error);
    SelectSnoc([], Some(c), Warning);
    SelectSnoc([], Some(c), Critical);
    SelectSnoc([], Some(c), Recommendation);
  }

  /** Rendering a report that holds one error. */
  lemma RenderSingleError(c: Message)
    ensures Render(Buckets([c], [], [], [])) == Buckets([Text(c)], [], [], [])
  {
    TextsSnoc([], c);
    assert [] + [c] == [c];
  }

  /**
   * A fault thrown by check `k` leaves exactly one error, its classification,
   * and keeps in every other bucket what the checks before `k` reported: a
   * prefix of what the whole battery would have reported.
   */
  lemma InterruptedReportKeepsPrefix(url: string, responseUrl: Option<string>, page: Page, i: Interruption, s: Severity)
    requires s != Error
    ensures Audit(url, Fetched(responseUrl, page, Some(i))).errors == [Classify(i.fault)]
    ensures Audit(url, Fetched(responseUrl, page, Some(i))).In(s) ==
      Select(RulesBefore(Evaluate(Measure(page, FinalUrl(url, responseUrl))), i.rule), s)
    ensures Audit(url, Fetched(responseUrl, page, Some(i))).In(s) <= Audit(url, Fetched(responseUrl, page, None)).In(s)
  {
    var m := Measure(page, FinalUrl(url, responseUrl));
    InterruptedKeepsPrefix(m, i.rule, Classify(i.fault), s);
    CompletedAudit(url, responseUrl, page);
  }

  /** The report of checks interrupted at check `k` by error `e`, over the measures of a page. */
  lemma InterruptedKeepsPrefix(m: Measures, k: RuleIndex, e: Message, s: Severity)
    requires SeverityOf(e) == Error && s != Error
    ensures Collect(RulesBefore(Evaluate(m), k) + [Some(e)]).errors == [e]
    ensures Collect(RulesBefore(Evaluate(m), k) + [Some(e)]).In(s) == Select(RulesBefore(Evaluate(m), k), s)
    ensures Select(RulesBefore(Evaluate(m), k), s) <= Completed(m).In(s)
  {
    var f := Evaluate(m);
    var pre := RulesBefore(f, k);
    EvaluateAttributed(m);
    forall j | 0 <= j < |pre| && pre[j].Some?
      ensures SeverityOf(pre[j].value) != Error
    {
      RulesBeforeAt(f, k, j);
      AttributedOrigin(f, j);
      OriginOfError(pre[j].value);
    }
    SelectEmpty(pre, Error);
    SelectSnoc(pre, Some(e), Error);
    SelectSnoc(pre, Some(e), s);
    RulesBeforePrefix(f, k, RuleCount);
    SelectPrefix(RuleOutcomes(f), k, s);
  }

  /** What the checks measure on a page, in the page's own terms. */
  lemma MeasuredPage(page: Page, finalUrl: string)
    ensures Measure(page, finalUrl).wordCount == |WordCount.Words(page.bodyText)|
    ensures Measure(page, finalUrl).h1Count == |page.h1Texts|
    ensures |page.h1Texts| > 0 ==> Measure(page, finalUrl).h1Text == Trim(page.h1Texts[0])
    ensures Measure(page, finalUrl).imagesWithoutAlt == 0 <==>
      forall i :: 0 <= i < |page.imageAlts| ==> !Missing(page.imageAlts[i])
    ensures Measure(page, finalUrl).brokenLinks == 0 <==>
      forall i :: 0 <= i < |page.anchors| ==> !IsPlaceholderLink(page.anchors[i])
    ensures Measure(page, finalUrl).externalLinksWithoutRel == 0 <==>
      forall i :: 0 <= i < |page.anchors| ==> !IsExternalWithoutRel(page.anchors[i], Url.Host(finalUrl))
  {
    WordCount.WordCountIsTokenCount(page.bodyText);
  }

  /** A blank body, the empty one included, is thin content with a count of zero. */
  lemma BlankBodyIsThin(page: Page, finalUrl: string)
    requires forall i :: 0 <= i < |page.bodyText| ==> IsWhitespace(page.bodyText[i])
    ensures ThinContent(0) in Completed(Measure(page, finalUrl)).criticalIssues
  {
    WordCount.BlankTextHasNoWords(page.bodyText);
    ContentFindings(Measure(page, finalUrl), 0);
  }

  /** A page on which every link stays under the final URL gets no external link advice. */
  lemma InternalLinksAreNotExternal(page: Page, finalUrl: string, n: nat)
    requires forall i :: 0 <= i < |page.anchors| ==>
      page.anchors[i].href.Some? ==> StartsWith(page.anchors[i].href.value, finalUrl)
    ensures ExternalLinksWithoutRel(n) !in Completed(Measure(page, finalUrl)).recommendations
  {
    forall i | 0 <= i < |page.anchors| && page.anchors[i].href.Some?
      ensures Includes(page.anchors[i].href.value, Url.Host(finalUrl))
    {
      Url.LinkUnderFinalUrlIncludesHost(page.anchors[i].href.value, finalUrl);
    }
    MeasuredPage(page, finalUrl);
    ExternalLinkFinding(Measure(page, finalUrl), n);
  }

  /** Every message is reported at most once in any bucket: only one check can produce it, and each check pushes once. */
  lemma ReportedOnce(m: Measures, x: Message, s: Severity)
    ensures multiset(Completed(m).In(s))[x] <= 1
  {
    var f := Evaluate(m);
    var fs := RuleOutcomes(f);
    EvaluateAttributed(m);
    forall i, j | 0 <= i < |fs| && 0 <= j < |fs| && fs[i] == Some(x) && fs[j] == Some(x)
      ensures i == j
    {
      RulesBeforeAt(f, RuleCount, i);
      RulesBeforeAt(f, RuleCount, j);
      AttributedOrigin(f, i);
      AttributedOrigin(f, j);
    }
    AtMostOnce(fs, Some(x));
    SelectOccurrences(fs, s, x);
  }

  /** Each check pushes at most one finding, so a run reports at most twenty. */
  lemma AtMostOneFindingPerCheck(m: Measures)
    ensures |Completed(m).errors| + |Completed(m).warnings| + |Completed(m).criticalIssues|
      + |Completed(m).recommendations| <= RuleCount
  {
    CollectSize(RuleOutcomes(Evaluate(m)));
  }
}
