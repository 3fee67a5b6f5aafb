/**
 * The findings the engine can report. Each finding is one message string in
 * the source; here it is a constructor carrying the values the string
 * interpolates, `Text` renders the exact string and `SeverityOf` names the one
 * bucket it is pushed to.
 */
module Messages {
  import opened JsString

  datatype Severity = Error | Warning | Critical | Recommendation

  datatype Message =
    // title tag
    | MissingTitleTag | ShortenTitle | LengthenTitle
    // meta description
    | MissingMetaDescription | MetaDescriptionTooLong | LengthenMetaDescription
    // headings
    | MissingH1 | MultipleH1(h1Count: nat) | MissingH2
    // images, content
    | MissingAltText(images: nat) | ThinContent(words: nat) | ShortContent(words: nat)
    // metadata
    | MissingOpenGraph | MissingCanonical | NotHttps | MissingViewport
    | RestrictiveRobots(directive: string) | MissingLang | MissingCharset
    // links and markup
    | PlaceholderLinks(links: nat) | TitleEqualsH1 | ExternalLinksWithoutRel(links: nat)
    | InlineStyles(elements: nat) | MissingStructuredData | MissingTwitterCard | MissingFavicon
    // fetch failures
    | HttpStatus(status: nat, statusText: string) | RequestTimeout | DomainNotFound
    | FetchFailed(reason: string)

  function SeverityOf(m: Message): Severity {
    match m
    case HttpStatus(_, _) | RequestTimeout | DomainNotFound | FetchFailed(_) => Error
    case ShortenTitle | MetaDescriptionTooLong | MultipleH1(_) | NotHttps | MissingViewport
      | RestrictiveRobots(_) | PlaceholderLinks(_) | MissingCharset => Warning
    case MissingTitleTag | MissingMetaDescription | MissingH1 | ThinContent(_) => Critical
    case _ => Recommendation
  }

  /** The suffix that pluralizes a counted noun: "s" for more than one, nothing otherwise. */
  function Plural(n: nat): string {
    if n > 1 then "s" else ""
  }

  /** The message string exactly as the engine pushes it. */
  function Text(m: Message): string {
    match m
    case MissingTitleTag => "Missing title tag"
    case ShortenTitle => "Consider shortening title tag to avoid truncation"
    case LengthenTitle => "Consider lengthening title tag for better SEO"
    case MissingMetaDescription => "Missing meta description"
    case MetaDescriptionTooLong => "Meta description is too long (may be truncated in search results)"
    case LengthenMetaDescription => "Consider lengthening meta description"
    case MissingH1 => "Add an H1 tag to the page"
    case MultipleH1(n) =>
      "Multiple H1 tags found (" + NatToString(n) + "). Consider using only one H1 per page"
    case MissingH2 => "Add H2 subheadings to improve content structure"
    case MissingAltText(n) => "Add alt text to " + NatToString(n) + " image" + Plural(n)
    case ThinContent(n) =>
      "Content is too thin (" + NatToString(n) + " words). Add more quality content (aim for 300+ words)"
    case ShortContent(n) =>
      "Increase content length (current: " + NatToString(n) + " words, aim for 300+ words)"
    case MissingOpenGraph => "Add Open Graph tags for better social media sharing"
    case MissingCanonical => "Add a canonical URL to avoid duplicate content issues"
    case NotHttps => "Consider using HTTPS for better security and SEO"
    case MissingViewport => "Missing viewport meta tag (important for mobile SEO)"
    case RestrictiveRobots(d) => "Page has restrictive robots meta tag: " + d
    case MissingLang => "Add lang attribute to <html> tag for better accessibility and SEO"
    case MissingCharset => "Missing character encoding declaration (charset)"
    case PlaceholderLinks(n) =>
      "Found " + NatToString(n) + " link" + Plural(n) + " with empty or placeholder href"
    case TitleEqualsH1 => "Title and H1 are identical. Consider making them complementary instead"
    case ExternalLinksWithoutRel(n) =>
      "Consider adding rel=\"noopener\" or rel=\"nofollow\" to " + NatToString(n) + " external link" + Plural(n)
    case InlineStyles(n) =>
      "Found " + NatToString(n) + " elements with inline styles. Consider using external CSS"
    case MissingStructuredData => "Add structured data (Schema.org) for better search visibility"
    case MissingTwitterCard => "Add Twitter Card meta tags for better Twitter sharing"
    case MissingFavicon => "Add a favicon for better brand recognition"
    case HttpStatus(status, statusText) => "Cannot access page: " + NatToString(status) + " " + statusText
    case RequestTimeout => "Request timeout: Page took too long to respond"
    case DomainNotFound => "Cannot access page: Domain not found"
    case FetchFailed(reason) => "Cannot access page: " + reason
  }

  /** The image count's noun is singular for one image and plural for more. */
  lemma AltTextNoun(n: nat)
    requires n > 0
    ensures Text(MissingAltText(n)) == "Add alt text to " + NatToString(n) + (if n == 1 then " image" else " images")
  {
    var head := "Add alt text to " + NatToString(n);
    assert Text(MissingAltText(n)) == head + " image" + Plural(n);
    if n > 1 {
      assert " image" + "s" == " images";
      assert head + " image" + "s" == head + (" image" + "s");
    }
  }

  /** The placeholder link count's noun is singular for one link and plural for more. */
  lemma PlaceholderLinkNoun(n: nat)
    requires n > 0
    ensures Text(PlaceholderLinks(n)) ==
      "Found " + NatToString(n) + (if n == 1 then " link" else " links") + " with empty or placeholder href"
  {
    var head := "Found " + NatToString(n);
    var tail := " with empty or placeholder href";
    assert Text(PlaceholderLinks(n)) == head + " link" + Plural(n) + tail;
    if n > 1 {
      assert " link" + "s" == " links";
      assert head + " link" + "s" + tail == head + (" link" + "s") + tail;
    }
  }

  /** The external link count's noun is singular for one link and plural for more. */
  lemma ExternalLinkNoun(n: nat)
    requires n > 0
    ensures Text(ExternalLinksWithoutRel(n)) ==
      "Consider adding rel=\"noopener\" or rel=\"nofollow\" to " + NatToString(n)
      + (if n == 1 then " external link" else " external links")
  {
    var head := "Consider adding rel=\"noopener\" or rel=\"nofollow\" to " + NatToString(n);
    assert Text(ExternalLinksWithoutRel(n)) == head + " external link" + Plural(n);
    if n > 1 {
      assert " external link" + "s" == " external links";
      assert head + " external link" + "s" == head + (" external link" + "s");
    }
  }

  /**
   * Text alone does not identify a message: a fault whose own message is
   * "Domain not found" pushes the very string of the unknown-domain error.
   */
  lemma FetchTextsCollide()
    ensures DomainNotFound != FetchFailed("Domain not found")
    ensures Text(DomainNotFound) == Text(FetchFailed("Domain not found"))
  {
    FetchFailedText("Domain not found");
    DomainNotFoundText();
  }

  /** The unknown-domain error is the generic prefix followed by "Domain not found". */
  lemma DomainNotFoundText()
    ensures Text(DomainNotFound) == "Cannot access page: " + "Domain not found"
  {
    assert "Cannot access page: " + "Domain not found" == "Cannot access page: Domain not found";
  }

  /** The generic fetch error is the fixed prefix followed by the fault's own message. */
  lemma FetchFailedText(reason: string)
    ensures Text(FetchFailed(reason)) == "Cannot access page: " + reason
  {
  }
}
