/**
 * The audited page as the analyzers see it: the target URL with the parts
 * `urlparse` splits it into, the HTTP response, the outcome of the three
 * auxiliary probes, and the facts the analyzers read off the parsed document
 * (DOM searches and regular-expression searches are done before the model
 * starts; their results are the fields below).
 */
module Page {
  import opened Options
  import opened Text
  import opened Lists

  /** The audited URL and `urlparse(url)`'s scheme, netloc, path and query. */
  datatype Target = Target(url: string, scheme: string, netloc: string, path: string, query: string)

  /** `tag.get(name)`: an attribute value, or nothing when the attribute is absent. */
  type Attr = Option<string>

  /** An attribute value Python treats as true: present and not empty. */
  predicate Truthy(a: Attr) {
    a.Some? && a.value != ""
  }

  /** An `<img>` element. */
  datatype Image = Image(alt: Attr, width: Attr, height: Attr, loading: Attr, srcset: Attr, src: Attr)

  /**
   * An `<a>` element that has an `href`: the href as written, `urljoin(url, href)`,
   * `str(rel)` (the rel tokens printed as a Python list, `"[]"` when absent) and
   * the element's text.
   */
  datatype Anchor = Anchor(href: string, resolved: string, rel: string, text: string)

  type Level = n: nat | 1 <= n <= 6 witness 1

  /** An `<h1>` … `<h6>` element: its level and its text. */
  datatype Heading = Heading(level: Level, text: string)

  /** A `<script>` element that has a `src`. */
  datatype Script = Script(src: string, async: Attr, defer: Attr)

  /** Facts from the document head. A `meta`/`link` tag found is `Some(its content or href)`, `""` when that attribute is absent. */
  datatype Head = Head(
    title: Option<string>,        // `title.string` (None when there is no title or it has no single string)
    description: Option<string>,  // meta name=description
    keywords: bool,               // meta name=keywords present
    lang: string,                 // lang attribute of <html>, "" when absent
    favicon: bool,                // a link whose rel matches /icon/i
    robots: Option<string>,       // meta name=robots
    canonical: Option<string>,    // link rel=canonical
    viewport: Option<string>,     // meta name=viewport
    charset: bool,                // meta charset or meta http-equiv=Content-Type
    hreflangCount: nat,           // links with hreflang
    amp: bool,                    // link rel=amphtml
    appLinkCount: nat,            // meta property al:ios / al:android
    ogTitle: Option<string>,
    ogDescription: Option<string>,
    ogImage: Option<string>,
    ogUrl: Option<string>,
    ogType: Option<string>,
    twitterCard: Option<string>,
    twitterTitle: bool,
    twitterImage: bool,
    articleDate: bool,            // meta property article:modified_time or article:published_time
    stylesheetCount: nat,         // link rel=stylesheet
    preloadCount: nat,            // link rel=preload
    preconnectCount: nat,         // link rel=preconnect
    dnsPrefetchCount: nat)        // link rel=dns-prefetch

  /** Facts from the document body, each list in document order. */
  datatype Body = Body(
    headings: seq<Heading>,
    images: seq<Image>,
    anchors: seq<Anchor>,
    paragraphs: seq<string>,      // text of each <p>
    scripts: seq<Script>,
    jsonLd: seq<string>,          // each script type=application/ld+json, printed as markup
    srcValues: seq<string>,       // src attribute of every element that has one
    hrefValues: seq<string>,      // href attribute of every element that has one
    touchStyles: seq<Attr>,       // style attribute of each <button> and <a>
    embeds: seq<string>,          // each <object> and <embed>, printed as markup
    passwordFields: nat,          // input type=password
    itemtypeCount: nat,           // elements with itemtype
    listCount: nat,               // <ul> and <ol>
    orderedListCount: nat,        // <ol>
    emphasisCount: nat,           // <strong>, <b>, <em>
    frameCount: nat,              // <frame>, <frameset>
    styledCount: nat,             // elements with a style attribute
    semanticCount: nat,           // <article>, <section>, <aside>, <nav>, <header>, <footer>, <main>
    tableCount: nat,
    figcaptionCount: nat,
    definitionListCount: nat,     // <dl>
    blockquoteCount: nat,
    timeCount: nat,               // <time>
    shareCount: nat,              // elements whose class matches /share|social/i
    authorClassCount: nat)        // elements whose class matches /author|bio|byline|written-by/i

  /** Results of the regular-expression searches over the page text and markup. */
  datatype Patterns = Patterns(
    sentences: seq<string>,       // re.split(r'[.!?]+', text)
    numbers: nat,                 // numeric data points in the text
    fixedWidths: nat,             // `width: NNNNpx` and wider in the markup
    smallFonts: nat,              // `font-size: Npx` (one digit) in the markup
    questions: nat,               // question phrases (what/how/why … ?) in the text
    definitions: nat,             // "X is/means/refers to … ." phrases
    steps: nat,                   // step indicators (step 1, first, next, …)
    phone: bool,                  // a phone number in the text
    address: bool,                // a street address in the text
    email: bool,                  // an e-mail address in the text
    contact: bool,                // an e-mail address or a plain phone number in the text
    mapsEmbed: bool,              // an iframe whose src is a Google Maps URL
    directions: bool)             // an <a> whose href is a Google Maps directions URL

  /**
   * The fetched page. `headers` is keyed by lower-cased header name, as the
   * response's case-insensitive dictionary looks names up; a probe is
   * `Some(status code)` or `None` when the request failed.
   */
  datatype Page = Page(
    headers: map<string, string>,
    contentLength: nat,           // len(response.content) in bytes
    loadTimeMs: nat,              // duration of the fetch, in milliseconds
    robotsProbe: Option<int>,     // GET /robots.txt
    sitemapProbe: Option<int>,    // GET /sitemap.xml
    llmsProbe: Option<int>,       // GET /llms.txt
    html: string,                 // str(soup)
    text: string,                 // soup.get_text()
    head: Head,
    body: Body,
    patterns: Patterns)

  /** `response.headers.get(name, '')` */
  function Header(p: Page, name: string): string {
    var key := Lower(name);
    if key in p.headers then p.headers[key] else ""
  }

  /** `r and r.status_code == 200` for the result of a probe. */
  predicate Found(probe: Option<int>) {
    probe == Some(200)
  }

  /** `soup.get_text().split()` */
  function PageWords(p: Page): seq<string> {
    Words(p.text)
  }

  function WordCount(p: Page): nat {
    |PageWords(p)|
  }

  /** Anchors whose resolved URL mentions the page's host. */
  function InternalAnchors(t: Target, anchors: seq<Anchor>): seq<Anchor> {
    Filter(anchors, (a: Anchor) => Contains(a.resolved, t.netloc))
  }

  /** Anchors with an absolute `http…` href that does not mention the page's host. */
  function ExternalAnchors(t: Target, anchors: seq<Anchor>): seq<Anchor> {
    Filter(anchors, (a: Anchor) => StartsWith(a.href, "http") && !Contains(a.href, t.netloc))
  }

  /** Anchors whose rel mentions `token`. */
  function WithRel(anchors: seq<Anchor>, token: string): seq<Anchor> {
    Filter(anchors, (a: Anchor) => Contains(a.rel, token))
  }

  /** Anchors whose href starts with `scheme` (`tel:`, `mailto:`). */
  function HrefScheme(anchors: seq<Anchor>, scheme: string): seq<Anchor> {
    Filter(anchors, (a: Anchor) => StartsWith(a.href, scheme))
  }

  /** Anchors whose href, case-insensitively, contains one of `words`. */
  function HrefMentions(anchors: seq<Anchor>, words: seq<string>): seq<Anchor> {
    Filter(anchors, (a: Anchor) => MentionsAny(Lower(a.href), words))
  }

  /** `any(w in s for w in words)` */
  predicate MentionsAny(s: string, words: seq<string>) {
    exists i :: 0 <= i < |words| && Contains(s, words[i])
  }

  /** Values that start with `prefix` (an `^prefix` regular expression). */
  function PrefixedBy(values: seq<string>, prefix: string): seq<string> {
    Filter(values, (v: string) => StartsWith(v, prefix))
  }

  /** The levels of a heading list, `[int(h.name[1]) for h in headings]`. */
  function Levels(hs: seq<Heading>): (ls: seq<int>)
    ensures |ls| == |hs|
    ensures forall i :: 0 <= i < |hs| ==> ls[i] == hs[i].level
  {
    seq(|hs|, i requires 0 <= i < |hs| => hs[i].level as int)
  }

  function HeadingsAt(hs: seq<Heading>, level: Level): seq<Heading> {
    Filter(hs, (h: Heading) => h.level == level)
  }

  predicate HasAlt(i: Image) { Truthy(i.alt) }
  predicate HasDimensions(i: Image) { Truthy(i.width) && Truthy(i.height) }
  predicate IsLazy(i: Image) { i.loading == Some("lazy") }
  predicate HasSrcset(i: Image) { Truthy(i.srcset) }
  predicate IsWebp(i: Image) { Contains(i.src.GetOr(""), ".webp") }
  predicate HasEmptyAlt(i: Image) { i.alt == Some("") }

  function AltImages(imgs: seq<Image>): seq<Image> { Filter(imgs, HasAlt) }
  function SizedImages(imgs: seq<Image>): seq<Image> { Filter(imgs, HasDimensions) }
  function LazyImages(imgs: seq<Image>): seq<Image> { Filter(imgs, IsLazy) }
  function SrcsetImages(imgs: seq<Image>): seq<Image> { Filter(imgs, HasSrcset) }
  function WebpImages(imgs: seq<Image>): seq<Image> { Filter(imgs, IsWebp) }
  function EmptyAltImages(imgs: seq<Image>): seq<Image> { Filter(imgs, HasEmptyAlt) }

  /**
   * Page equality under a name of its own: a quantifier guarded by it is only
   * instantiated for a page some proof mentions.
   */
  predicate SamePage(q: Page, p: Page) {
    q == p
  }
}
