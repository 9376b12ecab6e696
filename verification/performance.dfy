/** The Performance SEO analyzer: web-vitals indicators, compression and caching, resources and images (app.py:508-588). */
module Performance {
  import opened Options
  import opened Text
  import opened Lists
  import opened Checks
  import opened Page
  import opened Rules
  import opened ImageRules

  /** Number of records the analyzer emits on every page. */
  const Count: nat := 17

  /** A script loaded without blocking: its `async` or `defer` attribute is set to a non-empty value. */
  predicate NonBlocking(s: Script) {
    Truthy(s.async) || Truthy(s.defer)
  }

  function NonBlockingScripts(p: Page): seq<Script> {
    Filter(p.body.scripts, NonBlocking)
  }

  /** `encoding in ['gzip', 'br', 'deflate']` */
  predicate Compressed(encoding: string) {
    encoding == "gzip" || encoding == "br" || encoding == "deflate"
  }

  /** `f'{part}/{whole}'` */
  function OutOf(part: nat, whole: nat): string {
    NatToString(part) + "/" + NatToString(whole)
  }

  // ----- Checks 1-5: Core Web Vitals indicators -----

  function LoadVerdicts(p: Page): (vs: seq<Verdict>)
    ensures |vs| == 3
  {
    [ Verdict("Page Load Time", TierBelow(p.loadTimeMs, 2000, 4000)),
      Verdict("HTML Size", TierBelow(p.contentLength, 1024 * 100, 1024 * 200)),
      Verdict("CLS Prevention", DimensionStatus(p.body.images)) ]
  }

  function InteractionVerdicts(p: Page): (vs: seq<Verdict>)
    ensures |vs| == 2
  {
    [ Verdict("LCP Optimization", PassIf(p.head.preloadCount > 0, Info)),
      Verdict("Non-blocking JS", PassIf(AtLeastHalf(|NonBlockingScripts(p)|, |p.body.scripts|) || p.body.scripts == [], Warning)) ]
  }

  function VitalsVerdicts(p: Page): (vs: seq<Verdict>)
    ensures |vs| == 5
  {
    LoadVerdicts(p) + InteractionVerdicts(p)
  }

  // ----- Checks 6-9: compression and caching -----

  function CompressionVerdicts(p: Page): (vs: seq<Verdict>)
    ensures |vs| == 2
  {
    [ Verdict("Compression", PassIf(Compressed(Header(p, "Content-Encoding")), Warning)),
      Verdict("Cache Headers", PassIf(Header(p, "Cache-Control") != "", Warning)) ]
  }

  function ValidatorVerdicts(p: Page): (vs: seq<Verdict>)
    ensures |vs| == 2
  {
    [ Verdict("ETag Header", PassIf(Header(p, "ETag") != "", Info)),
      Verdict("Expires Header", PassIf(Header(p, "Expires") != "" || Header(p, "Cache-Control") != "", Info)) ]
  }

  function CachingVerdicts(p: Page): (vs: seq<Verdict>)
    ensures |vs| == 4
  {
    CompressionVerdicts(p) + ValidatorVerdicts(p)
  }

  // ----- Checks 10-14: resources and resource hints -----

  function FileCountVerdicts(p: Page): (vs: seq<Verdict>)
    ensures |vs| == 3
  {
    [ Verdict("CSS Files Count", PassIf(p.head.stylesheetCount <= 5, Warning)),
      Verdict("JS Files Count", PassIf(|p.body.scripts| <= 10, Warning)),
      Verdict("Inline Styles", PassIf(p.body.styledCount < 20, Warning)) ]
  }

  function HintVerdicts(p: Page): (vs: seq<Verdict>)
    ensures |vs| == 2
  {
    [ Verdict("Preconnect Hints", PassIf(p.head.preconnectCount > 0, Info)),
      Verdict("DNS Prefetch", PassIf(p.head.dnsPrefetchCount > 0 || p.head.preconnectCount > 0, Info)) ]
  }

  function ResourceVerdicts(p: Page): (vs: seq<Verdict>)
    ensures |vs| == 5
  {
    FileCountVerdicts(p) + HintVerdicts(p)
  }

  // ----- Checks 15-17: image optimization -----

  function ImageVerdicts(p: Page): (vs: seq<Verdict>)
    ensures |vs| == 3
  {
    [ Verdict("Lazy Loading", LazyStatus(p.body.images)),
      Verdict("Responsive Images", SrcsetStatus(p.body.images)),
      Verdict("WebP Images", WebpStatus(p.body.images)) ]
  }

  /** Name and outcome of each record, in the order the analyzer emits them. */
  function Verdicts(p: Page): (vs: seq<Verdict>)
    ensures |vs| == Count
  {
    VitalsVerdicts(p) + CachingVerdicts(p) + ResourceVerdicts(p) + ImageVerdicts(p)
  }

  /**
   * `vs` are the verdicts this analyzer reaches on the page `p`. The equation
   * is stated for every page `q` that is `p`, so that the verifier expands the
   * table only in proofs that mention `Verdicts` itself.
   */
  ghost predicate Yields(vs: seq<Verdict>, p: Page) {
    forall q {:trigger Verdicts(q)} :: SamePage(q, p) ==> vs == Verdicts(q)
  }

  /** The analyzer reaches one outcome per page. */
  lemma YieldsUnique(vs: seq<Verdict>, ws: seq<Verdict>, p: Page)
    requires Yields(vs, p) && Yields(ws, p)
    ensures vs == ws
  {
    assert vs == Verdicts(p);
  }

  /** The table yields itself. */
  lemma YieldsVerdicts(p: Page)
    ensures Yields(Verdicts(p), p)
  { }

  /** What the analyzer yields has one verdict per check. */
  lemma YieldsCount(vs: seq<Verdict>, p: Page)
    requires Yields(vs, p)
    ensures |vs| == Count
  {
    assert vs == Verdicts(p);
  }

  // ----- The analyzer -----

  method AddLoadChecks(checks: CheckList, p: Page)
    modifies checks
    ensures Project(checks.checks) == Project(old(checks.checks)) + LoadVerdicts(p)
    ensures ValuesBounded(old(checks.checks)) ==> ValuesBounded(checks.checks)
    ensures old(checks.checks) <= checks.checks
  {
    ghost var before := Project(checks.checks);
    ghost var c0 := checks.checks;
    var loadTime := p.loadTimeMs;
    checks.AddCheck("Page Load Time", TierBelow(loadTime, 2000, 4000), "Server response time",
                    FormatFixed(loadTime, 1000, 2) + "s", "Optimize to under 2 seconds", Critical, Some("Core Web Vitals"));
    ghost var c1 := checks.checks;
    var size := p.contentLength;
    checks.AddCheck("HTML Size", TierBelow(size, 1024 * 100, 1024 * 200), "Document size",
                    FormatFixed(size, 1024, 1) + " KB", "Keep HTML under 100KB", High, Some("Core Web Vitals"));
    ghost var c2 := checks.checks;
    var images := p.body.images;
    checks.AddCheck("CLS Prevention", DimensionStatus(images), "Images with dimensions",
                    OutOf(|SizedImages(images)|, |images|), "Add width/height to prevent layout shift", High, Some("Core Web Vitals"));
    Appended3(before, LoadVerdicts(p));
    Prefixes3(c0, c1, c2, checks.checks);
  }

  method AddInteractionChecks(checks: CheckList, p: Page)
    modifies checks
    ensures Project(checks.checks) == Project(old(checks.checks)) + InteractionVerdicts(p)
    ensures ValuesBounded(old(checks.checks)) ==> ValuesBounded(checks.checks)
    ensures old(checks.checks) <= checks.checks
  {
    ghost var before := Project(checks.checks);
    ghost var c0 := checks.checks;
    var preload := p.head.preloadCount;
    checks.AddCheck("LCP Optimization", PassIf(preload > 0, Info), "Preload hints",
                    NatToString(preload) + " preloads", "Preload LCP element", High, Some("Core Web Vitals"));
    ghost var c1 := checks.checks;
    var jsFiles := p.body.scripts;
    var asyncDefer := NonBlockingScripts(p);
    checks.AddCheck("Non-blocking JS", PassIf(AtLeastHalf(|asyncDefer|, |jsFiles|) || jsFiles == [], Warning), "Async/defer scripts",
                    OutOf(|asyncDefer|, |jsFiles|), "Add async/defer to scripts", High, Some("Core Web Vitals"));
    Appended2(before, InteractionVerdicts(p));
    Prefixes2(c0, c1, checks.checks);
  }

  method AddVitalsChecks(checks: CheckList, p: Page)
    modifies checks
    ensures Project(checks.checks) == Project(old(checks.checks)) + VitalsVerdicts(p)
    ensures ValuesBounded(old(checks.checks)) ==> ValuesBounded(checks.checks)
    ensures old(checks.checks) <= checks.checks
  {
    ghost var c0 := checks.checks;
    AddLoadChecks(checks, p);
    ghost var c1 := checks.checks;
    AddInteractionChecks(checks, p);
    Prefixes2(c0, c1, checks.checks);
  }

  method AddCompressionChecks(checks: CheckList, p: Page)
    modifies checks
    ensures Project(checks.checks) == Project(old(checks.checks)) + CompressionVerdicts(p)
    ensures ValuesBounded(old(checks.checks)) ==> ValuesBounded(checks.checks)
    ensures old(checks.checks) <= checks.checks
  {
    ghost var before := Project(checks.checks);
    ghost var c0 := checks.checks;
    var encoding := Header(p, "Content-Encoding");
    checks.AddCheck("Compression", PassIf(Compressed(encoding), Warning), "Response compression",
                    OrElse(encoding, "None"), "Enable gzip/brotli compression", High, Some("Compression"));
    ghost var c1 := checks.checks;
    var cacheControl := Header(p, "Cache-Control");
    checks.AddCheck("Cache Headers", PassIf(cacheControl != "", Warning), "Cache-Control header",
                    if cacheControl != "" then Take(cacheControl, 50) else "Not set", "Set cache headers", Medium, Some("Caching"));
    Appended2(before, CompressionVerdicts(p));
    Prefixes2(c0, c1, checks.checks);
  }

  method AddValidatorChecks(checks: CheckList, p: Page)
    modifies checks
    ensures Project(checks.checks) == Project(old(checks.checks)) + ValidatorVerdicts(p)
    ensures ValuesBounded(old(checks.checks)) ==> ValuesBounded(checks.checks)
    ensures old(checks.checks) <= checks.checks
  {
    ghost var before := Project(checks.checks);
    ghost var c0 := checks.checks;
    var etag := Header(p, "ETag");
    checks.AddCheck("ETag Header", PassIf(etag != "", Info), "ETag for caching",
                    if etag != "" then "Present" else "Not set", "Enable ETag", Low, Some("Caching"));
    ghost var c1 := checks.checks;
    var expires := Header(p, "Expires");
    var cacheControl := Header(p, "Cache-Control");
    checks.AddCheck("Expires Header", PassIf(expires != "" || cacheControl != "", Info), "Expires header",
                    if expires != "" then "Set" else "Not set", "Set expiration for static assets", Low, Some("Caching"));
    Appended2(before, ValidatorVerdicts(p));
    Prefixes2(c0, c1, checks.checks);
  }

  method AddCachingChecks(checks: CheckList, p: Page)
    modifies checks
    ensures Project(checks.checks) == Project(old(checks.checks)) + CachingVerdicts(p)
    ensures ValuesBounded(old(checks.checks)) ==> ValuesBounded(checks.checks)
    ensures old(checks.checks) <= checks.checks
  {
    ghost var c0 := checks.checks;
    AddCompressionChecks(checks, p);
    ghost var c1 := checks.checks;
    AddValidatorChecks(checks, p);
    Prefixes2(c0, c1, checks.checks);
  }

  method AddFileCountChecks(checks: CheckList, p: Page)
    modifies checks
    ensures Project(checks.checks) == Project(old(checks.checks)) + FileCountVerdicts(p)
    ensures ValuesBounded(old(checks.checks)) ==> ValuesBounded(checks.checks)
    ensures old(checks.checks) <= checks.checks
  {
    ghost var before := Project(checks.checks);
    ghost var c0 := checks.checks;
    var css := p.head.stylesheetCount;
    checks.AddCheck("CSS Files Count", PassIf(css <= 5, Warning), "Stylesheet count",
                    NatToString(css) + " files", "Combine CSS files", Medium, Some("Resources"));
    ghost var c1 := checks.checks;
    var js := |p.body.scripts|;
    checks.AddCheck("JS Files Count", PassIf(js <= 10, Warning), "Script count",
                    NatToString(js) + " files", "Combine/minimize JS files", Medium, Some("Resources"));
    ghost var c2 := checks.checks;
    var inline := p.body.styledCount;
    checks.AddCheck("Inline Styles", PassIf(inline < 20, Warning), "Inline style attributes",
                    NatToString(inline) + " elements", "Move styles to CSS files", Low, Some("Resources"));
    Appended3(before, FileCountVerdicts(p));
    Prefixes3(c0, c1, c2, checks.checks);
  }

  method AddHintChecks(checks: CheckList, p: Page)
    modifies checks
    ensures Project(checks.checks) == Project(old(checks.checks)) + HintVerdicts(p)
    ensures ValuesBounded(old(checks.checks)) ==> ValuesBounded(checks.checks)
    ensures old(checks.checks) <= checks.checks
  {
    ghost var before := Project(checks.checks);
    ghost var c0 := checks.checks;
    var preconnect := p.head.preconnectCount;
    checks.AddCheck("Preconnect Hints", PassIf(preconnect > 0, Info), "Preconnect links",
                    NatToString(preconnect) + " hints", "Add preconnect for third-party domains", Medium, Some("Resource Hints"));
    ghost var c1 := checks.checks;
    var dnsPrefetch := p.head.dnsPrefetchCount;
    checks.AddCheck("DNS Prefetch", PassIf(dnsPrefetch > 0 || preconnect > 0, Info), "DNS prefetch",
                    NatToString(dnsPrefetch) + " hints", "Add dns-prefetch hints", Low, Some("Resource Hints"));
    Appended2(before, HintVerdicts(p));
    Prefixes2(c0, c1, checks.checks);
  }

  method AddResourceChecks(checks: CheckList, p: Page)
    modifies checks
    ensures Project(checks.checks) == Project(old(checks.checks)) + ResourceVerdicts(p)
    ensures ValuesBounded(old(checks.checks)) ==> ValuesBounded(checks.checks)
    ensures old(checks.checks) <= checks.checks
  {
    ghost var c0 := checks.checks;
    AddFileCountChecks(checks, p);
    ghost var c1 := checks.checks;
    AddHintChecks(checks, p);
    Prefixes2(c0, c1, checks.checks);
  }

  method AddImageChecks(checks: CheckList, p: Page)
    modifies checks
    ensures Project(checks.checks) == Project(old(checks.checks)) + ImageVerdicts(p)
    ensures ValuesBounded(old(checks.checks)) ==> ValuesBounded(checks.checks)
    ensures old(checks.checks) <= checks.checks
  {
    ghost var before := Project(checks.checks);
    ghost var c0 := checks.checks;
    var images := p.body.images;
    checks.AddCheck("Lazy Loading", LazyStatus(images), "Lazy loaded images",
                    OutOf(|LazyImages(images)|, |images|), "Add loading=\"lazy\"", High, Some("Images"));
    ghost var c1 := checks.checks;
    checks.AddCheck("Responsive Images", SrcsetStatus(images), "Srcset images",
                    OutOf(|SrcsetImages(images)|, |images|), "Use srcset for responsive images", Medium, Some("Images"));
    ghost var c2 := checks.checks;
    checks.AddCheck("WebP Images", WebpStatus(images), "WebP format",
                    OutOf(|WebpImages(images)|, |images|), "Use WebP for better compression", Medium, Some("Images"));
    Appended3(before, ImageVerdicts(p));
    Prefixes3(c0, c1, c2, checks.checks);
  }

  /** `analyze_performance_seo(url, soup, response, load_time)` */
  method Analyze(p: Page) returns (r: CategoryResult)
    ensures Consistent(r) && |r.checks| == Count
    ensures Yields(Project(r.checks), p)
    ensures ValuesBounded(r.checks)
  {
    var checks := new CheckList();
    ghost var v0 := Project(checks.checks);
    AddVitalsChecks(checks, p);
    ghost var v1 := Project(checks.checks);
    AddCachingChecks(checks, p);
    ghost var v2 := Project(checks.checks);
    AddResourceChecks(checks, p);
    ghost var v3 := Project(checks.checks);
    AddImageChecks(checks, p);
    Chained4(v0, v1, v2, v3, Project(checks.checks), VitalsVerdicts(p), CachingVerdicts(p), ResourceVerdicts(p), ImageVerdicts(p));
    r := Summarize(checks.checks);
  }

  // ----- Properties -----

  /** Load time in seconds: under 2 passes, under 4 warns, anything slower fails; a slower fetch never scores better. */
  lemma LoadTimeMeaning(p: Page, slower: Page)
    requires p.loadTimeMs <= slower.loadTimeMs
    ensures LoadVerdicts(p)[0].status == Pass <==> (p.loadTimeMs as real) / 1000.0 < 2.0
    ensures LoadVerdicts(p)[0].status == Fail <==> (p.loadTimeMs as real) / 1000.0 >= 4.0
    ensures Rank(LoadVerdicts(slower)[0].status) <= Rank(LoadVerdicts(p)[0].status)
  {
    TierBelowBands(p.loadTimeMs, slower.loadTimeMs, 2000, 4000);
    QuotientAtLeast(p.loadTimeMs as real, 1000.0, 2.0);
    QuotientAtLeast(p.loadTimeMs as real, 1000.0, 4.0);
  }

  /** HTML size in KiB: under 100 passes, under 200 warns, anything larger fails. */
  lemma HtmlSizeMeaning(p: Page)
    ensures LoadVerdicts(p)[1].status == Pass <==> p.contentLength as real / 1024.0 < 100.0
    ensures LoadVerdicts(p)[1].status == Warning <==>
      100.0 <= p.contentLength as real / 1024.0 < 200.0
  {
    TierBelowBands(p.contentLength, p.contentLength, 1024 * 100, 1024 * 200);
    SizeBelowKbExact(p.contentLength, 100);
    SizeBelowKbExact(p.contentLength, 200);
  }

  /** "Non-blocking JS" passes exactly when there are no external scripts or at least half load without blocking. */
  lemma NonBlockingMeaning(p: Page)
    ensures InteractionVerdicts(p)[1].status == Pass <==>
      p.body.scripts == [] || |NonBlockingScripts(p)| as real >= |p.body.scripts| as real * 0.5
  {
    AtLeastHalfExact(|NonBlockingScripts(p)|, |p.body.scripts|);
  }

  /** A Cache-Control header is enough for "Expires Header" to pass, even without an Expires header. */
  lemma CacheControlCoversExpires(p: Page)
    requires CompressionVerdicts(p)[1].status == Pass
    ensures ValidatorVerdicts(p)[1].status == Pass
  {
  }

  /** Preconnect hints satisfy both resource-hint checks. */
  lemma PreconnectCoversDnsPrefetch(p: Page)
    requires HintVerdicts(p)[0].status == Pass
    ensures HintVerdicts(p)[1].status == Pass
  {
  }
}
