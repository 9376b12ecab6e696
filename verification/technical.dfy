/** The Technical SEO analyzer: crawlability, security, URL structure, linking and structured data (app.py:49-195). */
module Technical {
  import opened Options
  import opened Text
  import opened Lists
  import opened Checks
  import opened Page
  import opened Rules

  /** Number of records the analyzer emits on every page. */
  const Count: nat := 30

  /** Anchor texts that say nothing about the link target. */
  const GenericAnchorTexts: seq<string> := ["click here", "read more", "learn more", "here", "link"]

  /** `meta_robots.get('content', '').lower() if meta_robots else ''` */
  function MetaRobotsContent(p: Page): string {
    if p.head.robots.Some? then Lower(p.head.robots.value) else ""
  }

  /** `canonical.get('href', '') if canonical else ''` */
  function CanonicalHref(p: Page): string {
    p.head.canonical.GetOr("")
  }

  /** `url in canonical_href or canonical_href in url` */
  predicate SelfCanonical(t: Target, p: Page) {
    Contains(CanonicalHref(p), t.url) || Contains(t.url, CanonicalHref(p))
  }

  /** Elements whose `src` starts with `http://`. */
  function InsecureSources(p: Page): nat {
    |PrefixedBy(p.body.srcValues, "http://")|
  }

  /** The characters `[a-zA-Z0-9\-\_\/\.\:]` a clean URL path is made of. */
  predicate IsCleanChar(c: char) {
    IsUpperAscii(c) || IsLowerAscii(c) || ('0' <= c <= '9') || c in "-_/.:"
  }

  /** Path characters outside the clean set. */
  function SpecialChars(path: string): seq<char> {
    Filter(path, (c: char) => !IsCleanChar(c))
  }

  /** Anchors with an empty or placeholder `href`. */
  function EmptyHrefs(anchors: seq<Anchor>): seq<Anchor> {
    Filter(anchors, (a: Anchor) => Strip(a.href) == "" || a.href == "#")
  }

  /** Anchors whose trimmed, lower-cased text is one of the generic phrases. */
  function GenericAnchors(anchors: seq<Anchor>): seq<Anchor> {
    Filter(anchors, (a: Anchor) => Lower(Strip(a.text)) in GenericAnchorTexts)
  }

  /** `'<!doctype' in html.lower()[:100]` */
  predicate HasDoctype(p: Page) {
    Contains(Take(Lower(p.html), 100), "<!doctype")
  }

  // ----- Checks 1-7: crawlability -----

  function RobotsVerdicts(p: Page): (vs: seq<Verdict>)
    ensures |vs| == 3
  {
    [ Verdict("Robots.txt", PassIf(Found(p.robotsProbe), Warning)),
      Verdict("Meta Robots", PassIf(!Contains(MetaRobotsContent(p), "noindex"), Fail)),
      Verdict("XML Sitemap", PassIf(Found(p.sitemapProbe), Warning)) ]
  }

  function CanonicalVerdicts(t: Target, p: Page): (vs: seq<Verdict>)
    ensures |vs| == 2
  {
    [ Verdict("Canonical URL", PassIf(p.head.canonical.Some?, Warning)),
      Verdict("Self-Referencing Canonical", PassIf(SelfCanonical(t, p) || p.head.canonical.None?, Warning)) ]
  }

  function IndexingVerdicts(p: Page): (vs: seq<Verdict>)
    ensures |vs| == 2
  {
    [ Verdict("Hreflang Tags", PassIf(p.head.hreflangCount > 0, Info)),
      Verdict("X-Robots-Tag", PassIf(!Contains(Lower(Header(p, "X-Robots-Tag")), "noindex"), Fail)) ]
  }

  function CrawlabilityVerdicts(t: Target, p: Page): (vs: seq<Verdict>)
    ensures |vs| == 7
  {
    RobotsVerdicts(p) + CanonicalVerdicts(t, p) + IndexingVerdicts(p)
  }

  // ----- Checks 8-14: security -----

  function TransportVerdicts(t: Target, p: Page): (vs: seq<Verdict>)
    ensures |vs| == 3
  {
    [ Verdict("HTTPS", PassIf(t.scheme == "https", Fail)),
      Verdict("HSTS Header", PassIf(Header(p, "Strict-Transport-Security") != "", Warning)),
      Verdict("X-Content-Type-Options", PassIf(Header(p, "X-Content-Type-Options") != "", Warning)) ]
  }

  function FramingVerdicts(p: Page): (vs: seq<Verdict>)
    ensures |vs| == 2
  {
    [ Verdict("X-Frame-Options", PassIf(Header(p, "X-Frame-Options") != "", Warning)),
      Verdict("Content-Security-Policy", PassIf(Header(p, "Content-Security-Policy") != "", Info)) ]
  }

  function ResourceVerdicts(t: Target, p: Page): (vs: seq<Verdict>)
    ensures |vs| == 2
  {
    [ Verdict("No Mixed Content", PassIf(InsecureSources(p) == 0, Warning)),
      Verdict("Secure Password Fields", PassIf(t.scheme == "https" || p.body.passwordFields == 0, Fail)) ]
  }

  function SecurityVerdicts(t: Target, p: Page): (vs: seq<Verdict>)
    ensures |vs| == 7
  {
    TransportVerdicts(t, p) + FramingVerdicts(p) + ResourceVerdicts(t, p)
  }

  // ----- Checks 15-20: URL structure -----

  function UrlFormVerdicts(t: Target): (vs: seq<Verdict>)
    ensures |vs| == 3
  {
    [ Verdict("URL Length", PassIf(|t.url| < 75, Warning)),
      Verdict("URL Lowercase", PassIf(t.url == Lower(t.url), Warning)),
      Verdict("URL Hyphens", PassIf('_' !in t.path, Warning)) ]
  }

  function UrlPathVerdicts(t: Target): (vs: seq<Verdict>)
    ensures |vs| == 3
  {
    [ Verdict("URL Depth", PassIf(UrlDepth(t.path) <= 3, Warning)),
      Verdict("URL Parameters", PassIf(ParamCount(t.query) <= 2, Warning)),
      Verdict("Clean URL", PassIf(SpecialChars(t.path) == [], Warning)) ]
  }

  function UrlVerdicts(t: Target): (vs: seq<Verdict>)
    ensures |vs| == 6
  {
    UrlFormVerdicts(t) + UrlPathVerdicts(t)
  }

  // ----- Checks 21-25: internal linking -----

  function LinkCountVerdicts(t: Target, p: Page): (vs: seq<Verdict>)
    ensures |vs| == 3
  {
    [ Verdict("Internal Links", PassIf(|InternalAnchors(t, p.body.anchors)| >= 3, Warning)),
      Verdict("External Links", PassIf(ExternalAnchors(t, p.body.anchors) != [], Info)),
      Verdict("Valid Link Hrefs", PassIf(|EmptyHrefs(p.body.anchors)| < 3, Warning)) ]
  }

  function LinkQualityVerdicts(t: Target, p: Page): (vs: seq<Verdict>)
    ensures |vs| == 2
  {
    [ Verdict("Internal Nofollow", PassIf(WithRel(InternalAnchors(t, p.body.anchors), "nofollow") == [], Warning)),
      Verdict("Descriptive Anchors", PassIf(|GenericAnchors(p.body.anchors)| <= 2, Warning)) ]
  }

  function LinkingVerdicts(t: Target, p: Page): (vs: seq<Verdict>)
    ensures |vs| == 5
  {
    LinkCountVerdicts(t, p) + LinkQualityVerdicts(t, p)
  }

  // ----- Checks 26-30: structured data and document -----

  function SchemaVerdicts(p: Page): (vs: seq<Verdict>)
    ensures |vs| == 2
  {
    [ Verdict("Schema.org JSON-LD", PassIf(p.body.jsonLd != [], Warning)),
      Verdict("Microdata", PassIf(p.body.itemtypeCount > 0 || p.body.jsonLd != [], Info)) ]
  }

  function DocumentVerdicts(p: Page): (vs: seq<Verdict>)
    ensures |vs| == 3
  {
    [ Verdict("Viewport Meta", PassIf(p.head.viewport.Some?, Fail)),
      Verdict("DOCTYPE Declaration", PassIf(HasDoctype(p), Warning)),
      Verdict("Character Encoding", PassIf(p.head.charset, Warning)) ]
  }

  function StructureVerdicts(p: Page): (vs: seq<Verdict>)
    ensures |vs| == 5
  {
    SchemaVerdicts(p) + DocumentVerdicts(p)
  }

  /** Name and outcome of each record, in the order the analyzer emits them. */
  function Verdicts(t: Target, p: Page): (vs: seq<Verdict>)
    ensures |vs| == Count
  {
    CrawlabilityVerdicts(t, p) + SecurityVerdicts(t, p) + UrlVerdicts(t)
    + LinkingVerdicts(t, p) + StructureVerdicts(p)
  }

  /**
   * `vs` are the verdicts this analyzer reaches on the page `p`. The equation
   * is stated for every page `q` that is `p`, so that the verifier expands the
   * table only in proofs that mention `Verdicts` itself.
   */
  ghost predicate Yields(vs: seq<Verdict>, t: Target, p: Page) {
    forall q {:trigger Verdicts(t, q)} :: SamePage(q, p) ==> vs == Verdicts(t, q)
  }

  /** The analyzer reaches one outcome per page. */
  lemma YieldsUnique(vs: seq<Verdict>, ws: seq<Verdict>, t: Target, p: Page)
    requires Yields(vs, t, p) && Yields(ws, t, p)
    ensures vs == ws
  {
    assert vs == Verdicts(t, p);
  }

  /** The table yields itself. */
  lemma YieldsVerdicts(t: Target, p: Page)
    ensures Yields(Verdicts(t, p), t, p)
  { }

  /** What the analyzer yields has one verdict per check. */
  lemma YieldsCount(vs: seq<Verdict>, t: Target, p: Page)
    requires Yields(vs, t, p)
    ensures |vs| == Count
  {
    assert vs == Verdicts(t, p);
  }

  // ----- The analyzer -----

  method AddRobotsChecks(checks: CheckList, p: Page)
    modifies checks
    ensures Project(checks.checks) == Project(old(checks.checks)) + RobotsVerdicts(p)
    ensures ValuesBounded(old(checks.checks)) ==> ValuesBounded(checks.checks)
    ensures old(checks.checks) <= checks.checks
  {
    ghost var before := Project(checks.checks);
    ghost var c0 := checks.checks;
    var robots := Found(p.robotsProbe);
    checks.AddCheck("Robots.txt", PassIf(robots, Warning), "Robots.txt accessibility",
                    if robots then "Found" else "Not found", "Create robots.txt file", High, Some("Crawlability"));
    ghost var c1 := checks.checks;
    var robotsContent := MetaRobotsContent(p);
    checks.AddCheck("Meta Robots", PassIf(!Contains(robotsContent, "noindex"), Fail), "Page indexability",
                    OrElse(robotsContent, "Not set (indexable)"), "Remove noindex if needed", Critical, Some("Crawlability"));
    ghost var c2 := checks.checks;
    var sitemap := Found(p.sitemapProbe);
    checks.AddCheck("XML Sitemap", PassIf(sitemap, Warning), "Sitemap availability",
                    if sitemap then "Found" else "Not found", "Create XML sitemap", High, Some("Crawlability"));
    Appended3(before, RobotsVerdicts(p));
    Prefixes3(c0, c1, c2, checks.checks);
  }

  method AddCanonicalChecks(checks: CheckList, t: Target, p: Page)
    modifies checks
    ensures Project(checks.checks) == Project(old(checks.checks)) + CanonicalVerdicts(t, p)
    ensures ValuesBounded(old(checks.checks)) ==> ValuesBounded(checks.checks)
    ensures old(checks.checks) <= checks.checks
  {
    ghost var before := Project(checks.checks);
    ghost var c0 := checks.checks;
    var canonical := p.head.canonical;
    checks.AddCheck("Canonical URL", PassIf(canonical.Some?, Warning), "Canonical tag presence",
                    if canonical.Some? then Take(canonical.value, 60) else "Not set", "Add canonical tag", High, Some("Crawlability"));
    ghost var c1 := checks.checks;
    var isSelf := SelfCanonical(t, p);
    checks.AddCheck("Self-Referencing Canonical", PassIf(isSelf || canonical.None?, Warning), "Canonical points to self",
                    if isSelf then "Yes" else "No", "Use self-referencing canonical", Medium, Some("Crawlability"));
    Appended2(before, CanonicalVerdicts(t, p));
    Prefixes2(c0, c1, checks.checks);
  }

  method AddIndexingChecks(checks: CheckList, p: Page)
    modifies checks
    ensures Project(checks.checks) == Project(old(checks.checks)) + IndexingVerdicts(p)
    ensures ValuesBounded(old(checks.checks)) ==> ValuesBounded(checks.checks)
    ensures old(checks.checks) <= checks.checks
  {
    ghost var before := Project(checks.checks);
    ghost var c0 := checks.checks;
    var hreflang := p.head.hreflangCount;
    checks.AddCheck("Hreflang Tags", PassIf(hreflang > 0, Info), "International targeting",
                    NatToString(hreflang) + " tags", "Add for multi-language sites", Medium, Some("Crawlability"));
    ghost var c1 := checks.checks;
    var xRobots := Header(p, "X-Robots-Tag");
    checks.AddCheck("X-Robots-Tag", PassIf(!Contains(Lower(xRobots), "noindex"), Fail), "HTTP header indexability",
                    OrElse(xRobots, "Not set"), "Remove noindex from header", High, Some("Crawlability"));
    Appended2(before, IndexingVerdicts(p));
    Prefixes2(c0, c1, checks.checks);
  }

  method AddCrawlabilityChecks(checks: CheckList, t: Target, p: Page)
    modifies checks
    ensures Project(checks.checks) == Project(old(checks.checks)) + CrawlabilityVerdicts(t, p)
    ensures ValuesBounded(old(checks.checks)) ==> ValuesBounded(checks.checks)
    ensures old(checks.checks) <= checks.checks
  {
    ghost var c0 := checks.checks;
    AddRobotsChecks(checks, p);
    ghost var c1 := checks.checks;
    AddCanonicalChecks(checks, t, p);
    ghost var c2 := checks.checks;
    AddIndexingChecks(checks, p);
    Prefixes3(c0, c1, c2, checks.checks);
  }

  method AddTransportChecks(checks: CheckList, t: Target, p: Page)
    modifies checks
    ensures Project(checks.checks) == Project(old(checks.checks)) + TransportVerdicts(t, p)
    ensures ValuesBounded(old(checks.checks)) ==> ValuesBounded(checks.checks)
    ensures old(checks.checks) <= checks.checks
  {
    ghost var before := Project(checks.checks);
    ghost var c0 := checks.checks;
    checks.AddCheck("HTTPS", PassIf(t.scheme == "https", Fail), "Secure protocol",
                    Upper(t.scheme), "Enable SSL certificate", Critical, Some("Security"));
    ghost var c1 := checks.checks;
    var hsts := Header(p, "Strict-Transport-Security");
    checks.AddCheck("HSTS Header", PassIf(hsts != "", Warning), "HTTP Strict Transport Security",
                    if hsts != "" then "Enabled" else "Not set", "Enable HSTS", Medium, Some("Security"));
    ghost var c2 := checks.checks;
    var xcto := Header(p, "X-Content-Type-Options");
    checks.AddCheck("X-Content-Type-Options", PassIf(xcto != "", Warning), "MIME sniffing protection",
                    OrElse(xcto, "Not set"), "Add nosniff header", Medium, Some("Security"));
    Appended3(before, TransportVerdicts(t, p));
    Prefixes3(c0, c1, c2, checks.checks);
  }

  method AddFramingChecks(checks: CheckList, p: Page)
    modifies checks
    ensures Project(checks.checks) == Project(old(checks.checks)) + FramingVerdicts(p)
    ensures ValuesBounded(old(checks.checks)) ==> ValuesBounded(checks.checks)
    ensures old(checks.checks) <= checks.checks
  {
    ghost var before := Project(checks.checks);
    ghost var c0 := checks.checks;
    var xfo := Header(p, "X-Frame-Options");
    checks.AddCheck("X-Frame-Options", PassIf(xfo != "", Warning), "Clickjacking protection",
                    OrElse(xfo, "Not set"), "Add X-Frame-Options", Medium, Some("Security"));
    ghost var c1 := checks.checks;
    var csp := Header(p, "Content-Security-Policy");
    checks.AddCheck("Content-Security-Policy", PassIf(csp != "", Info), "CSP header",
                    if csp != "" then "Set" else "Not set", "Implement CSP", Medium, Some("Security"));
    Appended2(before, FramingVerdicts(p));
    Prefixes2(c0, c1, checks.checks);
  }

  method AddResourceChecks(checks: CheckList, t: Target, p: Page)
    modifies checks
    ensures Project(checks.checks) == Project(old(checks.checks)) + ResourceVerdicts(t, p)
    ensures ValuesBounded(old(checks.checks)) ==> ValuesBounded(checks.checks)
    ensures old(checks.checks) <= checks.checks
  {
    ghost var before := Project(checks.checks);
    ghost var c0 := checks.checks;
    var mixed := InsecureSources(p);
    checks.AddCheck("No Mixed Content", PassIf(mixed == 0, Warning), "All resources HTTPS",
                    NatToString(mixed) + " insecure resources", "Fix mixed content", High, Some("Security"));
    ghost var c1 := checks.checks;
    var passwords := p.body.passwordFields;
    checks.AddCheck("Secure Password Fields", PassIf(t.scheme == "https" || passwords == 0, Fail), "Password fields on HTTPS",
                    NatToString(passwords) + " fields", "Use HTTPS for login pages", Critical, Some("Security"));
    Appended2(before, ResourceVerdicts(t, p));
    Prefixes2(c0, c1, checks.checks);
  }

  method AddSecurityChecks(checks: CheckList, t: Target, p: Page)
    modifies checks
    ensures Project(checks.checks) == Project(old(checks.checks)) + SecurityVerdicts(t, p)
    ensures ValuesBounded(old(checks.checks)) ==> ValuesBounded(checks.checks)
    ensures old(checks.checks) <= checks.checks
  {
    ghost var c0 := checks.checks;
    AddTransportChecks(checks, t, p);
    ghost var c1 := checks.checks;
    AddFramingChecks(checks, p);
    ghost var c2 := checks.checks;
    AddResourceChecks(checks, t, p);
    Prefixes3(c0, c1, c2, checks.checks);
  }

  method AddUrlFormChecks(checks: CheckList, t: Target)
    modifies checks
    ensures Project(checks.checks) == Project(old(checks.checks)) + UrlFormVerdicts(t)
    ensures ValuesBounded(old(checks.checks)) ==> ValuesBounded(checks.checks)
    ensures old(checks.checks) <= checks.checks
  {
    ghost var before := Project(checks.checks);
    ghost var c0 := checks.checks;
    checks.AddCheck("URL Length", PassIf(|t.url| < 75, Warning), "URL characters",
                    NatToString(|t.url|) + " chars", "Keep under 75 characters", Medium, Some("URL Structure"));
    ghost var c1 := checks.checks;
    var lowercase := t.url == Lower(t.url);
    checks.AddCheck("URL Lowercase", PassIf(lowercase, Warning), "Lowercase URL",
                    if lowercase then "Yes" else "Has uppercase", "Use lowercase URLs", Medium, Some("URL Structure"));
    ghost var c2 := checks.checks;
    var hyphens := '_' !in t.path;
    checks.AddCheck("URL Hyphens", PassIf(hyphens, Warning), "Word separators",
                    if hyphens then "Hyphens" else "Has underscores", "Use hyphens not underscores", Medium, Some("URL Structure"));
    Appended3(before, UrlFormVerdicts(t));
    Prefixes3(c0, c1, c2, checks.checks);
  }

  method AddUrlPathChecks(checks: CheckList, t: Target)
    modifies checks
    ensures Project(checks.checks) == Project(old(checks.checks)) + UrlPathVerdicts(t)
    ensures ValuesBounded(old(checks.checks)) ==> ValuesBounded(checks.checks)
    ensures old(checks.checks) <= checks.checks
  {
    ghost var before := Project(checks.checks);
    ghost var c0 := checks.checks;
    var depth := UrlDepth(t.path);
    checks.AddCheck("URL Depth", PassIf(depth <= 3, Warning), "Directory levels",
                    NatToString(depth) + " levels", "Keep within 3 levels", Medium, Some("URL Structure"));
    ghost var c1 := checks.checks;
    var params := ParamCount(t.query);
    checks.AddCheck("URL Parameters", PassIf(params <= 2, Warning), "Query parameters",
                    NatToString(params) + " parameters", "Minimize URL parameters", Medium, Some("URL Structure"));
    ghost var c2 := checks.checks;
    var special := SpecialChars(t.path);
    checks.AddCheck("Clean URL", PassIf(special == [], Warning), "Special characters",
                    NatToString(|special|) + " found", "Remove special characters", Medium, Some("URL Structure"));
    Appended3(before, UrlPathVerdicts(t));
    Prefixes3(c0, c1, c2, checks.checks);
  }

  method AddUrlChecks(checks: CheckList, t: Target)
    modifies checks
    ensures Project(checks.checks) == Project(old(checks.checks)) + UrlVerdicts(t)
    ensures ValuesBounded(old(checks.checks)) ==> ValuesBounded(checks.checks)
    ensures old(checks.checks) <= checks.checks
  {
    ghost var c0 := checks.checks;
    AddUrlFormChecks(checks, t);
    ghost var c1 := checks.checks;
    AddUrlPathChecks(checks, t);
    Prefixes2(c0, c1, checks.checks);
  }

  method AddLinkCountChecks(checks: CheckList, t: Target, p: Page)
    modifies checks
    ensures Project(checks.checks) == Project(old(checks.checks)) + LinkCountVerdicts(t, p)
    ensures ValuesBounded(old(checks.checks)) ==> ValuesBounded(checks.checks)
    ensures old(checks.checks) <= checks.checks
  {
    ghost var before := Project(checks.checks);
    ghost var c0 := checks.checks;
    var internal := InternalAnchors(t, p.body.anchors);
    checks.AddCheck("Internal Links", PassIf(|internal| >= 3, Warning), "Internal linking",
                    NatToString(|internal|) + " links", "Add 3-10 internal links", High, Some("Internal Linking"));
    ghost var c1 := checks.checks;
    var external := ExternalAnchors(t, p.body.anchors);
    checks.AddCheck("External Links", PassIf(external != [], Info), "Outbound links",
                    NatToString(|external|) + " links", "Link to authority sites", Medium, Some("Internal Linking"));
    ghost var c2 := checks.checks;
    var empty := EmptyHrefs(p.body.anchors);
    checks.AddCheck("Valid Link Hrefs", PassIf(|empty| < 3, Warning), "Empty/placeholder links",
                    NatToString(|empty|) + " found", "Fix empty href attributes", Medium, Some("Internal Linking"));
    Appended3(before, LinkCountVerdicts(t, p));
    Prefixes3(c0, c1, c2, checks.checks);
  }

  method AddLinkQualityChecks(checks: CheckList, t: Target, p: Page)
    modifies checks
    ensures Project(checks.checks) == Project(old(checks.checks)) + LinkQualityVerdicts(t, p)
    ensures ValuesBounded(old(checks.checks)) ==> ValuesBounded(checks.checks)
    ensures old(checks.checks) <= checks.checks
  {
    ghost var before := Project(checks.checks);
    ghost var c0 := checks.checks;
    var nofollow := WithRel(InternalAnchors(t, p.body.anchors), "nofollow");
    checks.AddCheck("Internal Nofollow", PassIf(nofollow == [], Warning), "Nofollow on internal links",
                    NatToString(|nofollow|) + " found", "Remove nofollow from internal links", Medium, Some("Internal Linking"));
    ghost var c1 := checks.checks;
    var generic := GenericAnchors(p.body.anchors);
    checks.AddCheck("Descriptive Anchors", PassIf(|generic| <= 2, Warning), "Generic anchor text",
                    NatToString(|generic|) + " generic", "Use descriptive anchor text", Medium, Some("Internal Linking"));
    Appended2(before, LinkQualityVerdicts(t, p));
    Prefixes2(c0, c1, checks.checks);
  }

  method AddLinkingChecks(checks: CheckList, t: Target, p: Page)
    modifies checks
    ensures Project(checks.checks) == Project(old(checks.checks)) + LinkingVerdicts(t, p)
    ensures ValuesBounded(old(checks.checks)) ==> ValuesBounded(checks.checks)
    ensures old(checks.checks) <= checks.checks
  {
    ghost var c0 := checks.checks;
    AddLinkCountChecks(checks, t, p);
    ghost var c1 := checks.checks;
    AddLinkQualityChecks(checks, t, p);
    Prefixes2(c0, c1, checks.checks);
  }

  method AddSchemaChecks(checks: CheckList, p: Page)
    modifies checks
    ensures Project(checks.checks) == Project(old(checks.checks)) + SchemaVerdicts(p)
    ensures ValuesBounded(old(checks.checks)) ==> ValuesBounded(checks.checks)
    ensures old(checks.checks) <= checks.checks
  {
    ghost var before := Project(checks.checks);
    ghost var c0 := checks.checks;
    var jsonLd := p.body.jsonLd;
    checks.AddCheck("Schema.org JSON-LD", PassIf(jsonLd != [], Warning), "Structured data",
                    NatToString(|jsonLd|) + " blocks", "Add Schema.org markup", High, Some("Structured Data"));
    ghost var c1 := checks.checks;
    var microdata := p.body.itemtypeCount;
    checks.AddCheck("Microdata", PassIf(microdata > 0 || jsonLd != [], Info), "Microdata markup",
                    NatToString(microdata) + " items", "Consider adding microdata", Low, Some("Structured Data"));
    Appended2(before, SchemaVerdicts(p));
    Prefixes2(c0, c1, checks.checks);
  }

  method AddDocumentChecks(checks: CheckList, p: Page)
    modifies checks
    ensures Project(checks.checks) == Project(old(checks.checks)) + DocumentVerdicts(p)
    ensures ValuesBounded(old(checks.checks)) ==> ValuesBounded(checks.checks)
    ensures old(checks.checks) <= checks.checks
  {
    ghost var before := Project(checks.checks);
    ghost var c0 := checks.checks;
    var viewport := p.head.viewport;
    checks.AddCheck("Viewport Meta", PassIf(viewport.Some?, Fail), "Mobile viewport",
                    if viewport.Some? then Take(viewport.value, 40) else "Not set", "Add viewport meta tag", Critical, Some("Technical"));
    ghost var c1 := checks.checks;
    var doctype := HasDoctype(p);
    checks.AddCheck("DOCTYPE Declaration", PassIf(doctype, Warning), "HTML DOCTYPE",
                    if doctype then "Present" else "Missing", "Add DOCTYPE declaration", Medium, Some("Technical"));
    ghost var c2 := checks.checks;
    var charset := p.head.charset;
    checks.AddCheck("Character Encoding", PassIf(charset, Warning), "Charset declaration",
                    if charset then "UTF-8" else "Not set", "Declare character encoding", High, Some("Technical"));
    Appended3(before, DocumentVerdicts(p));
    Prefixes3(c0, c1, c2, checks.checks);
  }

  method AddStructureChecks(checks: CheckList, p: Page)
    modifies checks
    ensures Project(checks.checks) == Project(old(checks.checks)) + StructureVerdicts(p)
    ensures ValuesBounded(old(checks.checks)) ==> ValuesBounded(checks.checks)
    ensures old(checks.checks) <= checks.checks
  {
    ghost var c0 := checks.checks;
    AddSchemaChecks(checks, p);
    ghost var c1 := checks.checks;
    AddDocumentChecks(checks, p);
    Prefixes2(c0, c1, checks.checks);
  }

  /** `analyze_technical_seo(url, soup, response, load_time)` */
  method Analyze(t: Target, p: Page) returns (r: CategoryResult)
    ensures Consistent(r) && |r.checks| == Count
    ensures Yields(Project(r.checks), t, p)
    ensures ValuesBounded(r.checks)
  {
    var checks := new CheckList();
    ghost var v0 := Project(checks.checks);
    AddCrawlabilityChecks(checks, t, p);
    ghost var v1 := Project(checks.checks);
    AddSecurityChecks(checks, t, p);
    ghost var v2 := Project(checks.checks);
    AddUrlChecks(checks, t);
    ghost var v3 := Project(checks.checks);
    AddLinkingChecks(checks, t, p);
    ghost var v4 := Project(checks.checks);
    AddStructureChecks(checks, p);
    Chained5(v0, v1, v2, v3, v4, Project(checks.checks), CrawlabilityVerdicts(t, p), SecurityVerdicts(t, p),
             UrlVerdicts(t), LinkingVerdicts(t, p), StructureVerdicts(p));
    r := Summarize(checks.checks);
  }

  // ----- Properties -----

  /**
   * A page without a canonical link, or with one that has no `href`, passes
   * "Self-Referencing Canonical": the empty href is contained in every URL.
   */
  lemma CanonicalWithoutHref(t: Target, p: Page)
    requires p.head.canonical.None? || p.head.canonical.value == ""
    ensures SelfCanonical(t, p)
    ensures CanonicalVerdicts(t, p)[1] == Verdict("Self-Referencing Canonical", Pass)
  {
    ContainsEmpty(t.url);
  }

  /** A canonical link that is neither inside the URL nor contains it is the only way to warn. */
  lemma CanonicalWarns(t: Target, p: Page)
    ensures CanonicalVerdicts(t, p)[1].status == Warning <==>
      p.head.canonical.Some? && !Contains(p.head.canonical.value, t.url) && !Contains(t.url, p.head.canonical.value)
  {
  }

  /** A `noindex` directive fails "Meta Robots" whatever its letter case. */
  lemma NoindexFails(p: Page, content: string)
    requires p.head.robots == Some(content) && Contains(Lower(content), "noindex")
    ensures RobotsVerdicts(p)[1] == Verdict("Meta Robots", Fail)
  {
  }

  /** A path four directories deep is one level too deep. */
  lemma DeepPathWarns(t: Target, a: string, b: string, c: string, d: string)
    requires t.path == "/" + a + "/" + b + "/" + c + "/" + d
    requires a != "" && b != "" && c != "" && d != ""
    requires '/' !in a && '/' !in b && '/' !in c && '/' !in d
    ensures UrlDepth(t.path) == 4
    ensures UrlPathVerdicts(t)[0] == Verdict("URL Depth", Warning)
  {
    UrlDepthSegment(a);
    UrlDepthSegment(b);
    UrlDepthSegment(c);
    UrlDepthSegment(d);
    UrlDepthConcat("/" + a, b);
    UrlDepthConcat("/" + a + "/" + b, c);
    UrlDepthConcat("/" + a + "/" + b + "/" + c, d);
  }
}
