/**
 * The parsed page as the facts the rules read from it. The HTML parser and its
 * selector engine are not modelled: each field is what one selector query of
 * the engine returns. An attribute read with `.attr(name)` is the attribute of
 * the FIRST matching element, `None` when there is no match or no attribute.
 */
module PageModel {
  import opened Wrappers
  import opened JsString
  import Url

  /** One `<a>` element: its `href` and `rel` attributes. */
  datatype Anchor = Anchor(href: Option<string>, rel: Option<string>)

  datatype Page = Page(
    title: string,                    // $('title').text()
    metaDescription: Option<string>,  // meta[name="description"] content
    h1Texts: seq<string>,             // text of every <h1>, in document order
    imageAlts: seq<Option<string>>,   // alt of every <img>, in document order
    bodyText: string,                 // $('body').text()
    ogTitle: Option<string>,          // meta[property="og:title"] content
    ogDescription: Option<string>,    // meta[property="og:description"] content
    ogImage: Option<string>,          // meta[property="og:image"] content
    canonical: Option<string>,        // link[rel="canonical"] href
    viewport: Option<string>,         // meta[name="viewport"] content
    robots: Option<string>,           // meta[name="robots"] content
    h2Count: nat,                     // number of <h2>
    anchors: seq<Anchor>,             // every <a>, in document order
    htmlLang: Option<string>,         // html lang
    charsetMetaCount: nat,            // number of meta[charset]
    contentTypeMetaCount: nat,        // number of meta[http-equiv="Content-Type"]
    styledElementCount: nat,          // number of [style]
    ldJsonScriptCount: nat,           // number of script[type="application/ld+json"]
    itemscopeCount: nat,              // number of [itemscope]
    twitterCard: Option<string>,      // meta[name="twitter:card"] content
    faviconLinkCount: nat             // number of link[rel="icon"], link[rel="shortcut icon"]
  )

  /** `.filter(p).length` over a list of elements. */
  function CountWhere<T>(s: seq<T>, p: T -> bool): (n: nat)
    ensures n <= |s|
    ensures n == 0 <==> forall i :: 0 <= i < |s| ==> !p(s[i])
    ensures n == |s| <==> forall i :: 0 <= i < |s| ==> p(s[i])
  {
    if s == [] then 0 else (if p(s[0]) then 1 else 0) + CountWhere(s[1..], p)
  }

  /** Images whose `alt` is absent or empty. */
  function ImagesWithoutAlt(page: Page): nat {
    CountWhere(page.imageAlts, Missing)
  }

  /** `a[href="#"], a[href=""]`: the attribute must be present with exactly that value. */
  predicate IsPlaceholderLink(a: Anchor) {
    a.href == Some("#") || a.href == Some("")
  }

  function PlaceholderLinkCount(page: Page): nat {
    CountWhere(page.anchors, IsPlaceholderLink)
  }

  /**
   * `a[href^="http"]` filtered by `href && !href.includes(host) && !rel`: the
   * "external" test is whether the href contains the host as a substring.
   */
  predicate IsExternalWithoutRel(a: Anchor, host: string) {
    a.href.Some? && StartsWith(a.href.value, "http") && a.href.value != ""
    && !Includes(a.href.value, host) && Missing(a.rel)
  }

  /**
   * `.filter(...).length` of the external-link test against one host. This is
   * `CountWhere` with the test fixed: a predicate closed over the host would be
   * a lambda, which makes every proof about the count markedly more costly.
   */
  function CountExternal(anchors: seq<Anchor>, host: string): (n: nat)
    ensures n <= |anchors|
    ensures n == 0 <==> forall i :: 0 <= i < |anchors| ==> !IsExternalWithoutRel(anchors[i], host)
  {
    if anchors == [] then 0
    else (if IsExternalWithoutRel(anchors[0], host) then 1 else 0) + CountExternal(anchors[1..], host)
  }

  function ExternalLinkCount(page: Page, finalUrl: string): nat {
    CountExternal(page.anchors, Url.Host(finalUrl))
  }
}
