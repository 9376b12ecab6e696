/** The Mobile SEO analyzer: viewport, touch and layout, and mobile performance (app.py:418-497). */
module Mobile {
  import opened Options
  import opened Text
  import opened Lists
  import opened Checks
  import opened Page
  import opened Rules
  import opened ImageRules

  /** Number of records the analyzer emits on every page. */
  const Count: nat := 15

  /** `viewport.get('content', '') if viewport else ''` */
  function ViewportContent(p: Page): string {
    p.head.viewport.GetOr("")
  }

  /** `'user-scalable=no' in viewport_content or 'maximum-scale=1' in viewport_content` */
  predicate ZoomDisabled(p: Page) {
    Contains(ViewportContent(p), "user-scalable=no") || Contains(ViewportContent(p), "maximum-scale=1")
  }

  /** A `style` that is set and mentions `font-size: 1` or `padding: 0`. */
  predicate IsSmallTarget(style: Attr) {
    Truthy(style) && (Contains(style.value, "font-size: 1") || Contains(style.value, "padding: 0"))
  }

  /** The styles of the buttons and links that look too small to tap. */
  function SmallTargets(p: Page): seq<Attr> {
    Filter(p.body.touchStyles, IsSmallTarget)
  }

  /** Markup of an `<object>` or `<embed>` that mentions Flash, in any case. */
  predicate MentionsFlash(markup: string) {
    Contains(Lower(markup), "flash") || Contains(Lower(markup), "swf")
  }

  /** `<object>` and `<embed>` elements whose markup mentions Flash. */
  function FlashEmbeds(p: Page): seq<string> {
    Filter(p.body.embeds, MentionsFlash)
  }

  // ----- Checks 1-5: viewport and responsiveness -----

  function ViewportVerdicts(p: Page): (vs: seq<Verdict>)
    ensures |vs| == 3
  {
    [ Verdict("Viewport Meta Tag", PassIf(p.head.viewport.Some?, Fail)),
      Verdict("Viewport Width", PassIf(Contains(ViewportContent(p), "width="), Fail)),
      Verdict("Initial Scale", PassIf(Contains(ViewportContent(p), "initial-scale"), Warning)) ]
  }

  function ScalingVerdicts(p: Page): (vs: seq<Verdict>)
    ensures |vs| == 2
  {
    [ Verdict("Zoom Enabled", PassIf(!ZoomDisabled(p), Warning)),
      Verdict("Media Queries", PassIf(Contains(p.html, "@media"), Warning)) ]
  }

  function ResponsivenessVerdicts(p: Page): (vs: seq<Verdict>)
    ensures |vs| == 5
  {
    ViewportVerdicts(p) + ScalingVerdicts(p)
  }

  // ----- Checks 6-10: touch and mobile UX -----

  function TouchVerdicts(p: Page): (vs: seq<Verdict>)
    ensures |vs| == 3
  {
    [ Verdict("Touch Targets", PassIf(FewSmallTargets(|SmallTargets(p)|, |p.body.touchStyles|), Warning)),
      Verdict("No Flash Content", PassIf(FlashEmbeds(p) == [], Fail)),
      Verdict("No Frames", PassIf(p.body.frameCount == 0, Fail)) ]
  }

  function LayoutVerdicts(p: Page): (vs: seq<Verdict>)
    ensures |vs| == 2
  {
    [ Verdict("No Fixed Width", PassIf(p.patterns.fixedWidths == 0, Warning)),
      Verdict("Readable Font Size", PassIf(p.patterns.smallFonts < 3, Warning)) ]
  }

  function UxVerdicts(p: Page): (vs: seq<Verdict>)
    ensures |vs| == 5
  {
    TouchVerdicts(p) + LayoutVerdicts(p)
  }

  // ----- Checks 11-15: mobile performance -----

  function WeightVerdicts(p: Page): (vs: seq<Verdict>)
    ensures |vs| == 3
  {
    [ Verdict("Image Lazy Loading", LazyStatus(p.body.images)),
      Verdict("Page Weight", PassIf(SizeBelowKb(p.contentLength, 100), Warning)),
      Verdict("AMP Version", Info) ]
  }

  function IntegrationVerdicts(p: Page): (vs: seq<Verdict>)
    ensures |vs| == 2
  {
    [ Verdict("App Deep Links", Info),
      Verdict("Click-to-Call", PassIf(HrefScheme(p.body.anchors, "tel:") != [], Info)) ]
  }

  function PerformanceVerdicts(p: Page): (vs: seq<Verdict>)
    ensures |vs| == 5
  {
    WeightVerdicts(p) + IntegrationVerdicts(p)
  }

  /** Name and outcome of each record, in the order the analyzer emits them. */
  function Verdicts(p: Page): (vs: seq<Verdict>)
    ensures |vs| == Count
  {
    ResponsivenessVerdicts(p) + UxVerdicts(p) + PerformanceVerdicts(p)
  }

  /**
   * `vs` are the verdicts this analyzer reaches on the page `p`. The equation
   * is stated for every page `q` that is `p`, so that the verifier expands the
   * table only in proofs that mention `Verdicts` itself.
   */
  ghost predicate Yields(vs: seq<Verdict>, p: Page) {
    forall q {:trigger Verdicts(q)} :: SamePage(q, p) ==> vs == Verdicts(q)
  }

  /** The analyzer reaches one outcome per page. */
  lemma YieldsUnique(vs: seq<Verdict>, ws: seq<Verdict>, p: Page)
    requires Yields(vs, p) && Yields(ws, p)
    ensures vs == ws
  {
    assert vs == Verdicts(p);
  }

  /** The table yields itself. */
  lemma YieldsVerdicts(p: Page)
    ensures Yields(Verdicts(p), p)
  { }

  /** What the analyzer yields has one verdict per check. */
  lemma YieldsCount(vs: seq<Verdict>, p: Page)
    requires Yields(vs, p)
    ensures |vs| == Count
  {
    assert vs == Verdicts(p);
  }

  // ----- The analyzer -----

  method AddViewportChecks(checks: CheckList, p: Page)
    modifies checks
    ensures Project(checks.checks) == Project(old(checks.checks)) + ViewportVerdicts(p)
    ensures ValuesBounded(old(checks.checks)) ==> ValuesBounded(checks.checks)
    ensures old(checks.checks) <= checks.checks
  {
    ghost var before := Project(checks.checks);
    ghost var c0 := checks.checks;
    var viewport := p.head.viewport;
    checks.AddCheck("Viewport Meta Tag", PassIf(viewport.Some?, Fail), "Viewport defined",
                    if viewport.Some? then Take(viewport.value, 50) else "Missing", "Add viewport meta tag", Critical, Some("Viewport"));
    ghost var c1 := checks.checks;
    var content := ViewportContent(p);
    var hasWidth := Contains(content, "width=");
    checks.AddCheck("Viewport Width", PassIf(hasWidth, Fail), "Width specified",
                    if hasWidth then "Yes" else "No", "Set width=device-width", Critical, Some("Viewport"));
    ghost var c2 := checks.checks;
    var hasScale := Contains(content, "initial-scale");
    checks.AddCheck("Initial Scale", PassIf(hasScale, Warning), "Initial scale set",
                    if hasScale then "Yes" else "No", "Set initial-scale=1", High, Some("Viewport"));
    Appended3(before, ViewportVerdicts(p));
    Prefixes3(c0, c1, c2, checks.checks);
  }

  method AddScalingChecks(checks: CheckList, p: Page)
    modifies checks
    ensures Project(checks.checks) == Project(old(checks.checks)) + ScalingVerdicts(p)
    ensures ValuesBounded(old(checks.checks)) ==> ValuesBounded(checks.checks)
    ensures old(checks.checks) <= checks.checks
  {
    ghost var before := Project(checks.checks);
    ghost var c0 := checks.checks;
    var noScale := ZoomDisabled(p);
    checks.AddCheck("Zoom Enabled", PassIf(!noScale, Warning), "User can zoom",
                    if !noScale then "Yes" else "Disabled", "Allow user zooming for accessibility", Medium, Some("Viewport"));
    ghost var c1 := checks.checks;
    var mediaQueries := Contains(p.html, "@media");
    checks.AddCheck("Media Queries", PassIf(mediaQueries, Warning), "Responsive CSS",
                    if mediaQueries then "Found" else "Not found", "Use CSS media queries", High, Some("Responsiveness"));
    Appended2(before, ScalingVerdicts(p));
    Prefixes2(c0, c1, checks.checks);
  }

  method AddResponsivenessChecks(checks: CheckList, p: Page)
    modifies checks
    ensures Project(checks.checks) == Project(old(checks.checks)) + ResponsivenessVerdicts(p)
    ensures ValuesBounded(old(checks.checks)) ==> ValuesBounded(checks.checks)
    ensures old(checks.checks) <= checks.checks
  {
    ghost var c0 := checks.checks;
    AddViewportChecks(checks, p);
    ghost var c1 := checks.checks;
    AddScalingChecks(checks, p);
    Prefixes2(c0, c1, checks.checks);
  }

  method AddTouchChecks(checks: CheckList, p: Page)
    modifies checks
    ensures Project(checks.checks) == Project(old(checks.checks)) + TouchVerdicts(p)
    ensures ValuesBounded(old(checks.checks)) ==> ValuesBounded(checks.checks)
    ensures old(checks.checks) <= checks.checks
  {
    ghost var before := Project(checks.checks);
    ghost var c0 := checks.checks;
    var buttons := |p.body.touchStyles|;
    var small := |SmallTargets(p)|;
    checks.AddCheck("Touch Targets", PassIf(FewSmallTargets(small, buttons), Warning), "Touch-friendly buttons",
                    NatToString(buttons - small) + "/" + NatToString(buttons), "Use 48px minimum touch targets", Medium, Some("Touch UX"));
    ghost var c1 := checks.checks;
    var flash := FlashEmbeds(p);
    checks.AddCheck("No Flash Content", PassIf(flash == [], Fail), "Flash elements",
                    NatToString(|flash|) + " found", "Remove Flash content", Critical, Some("Mobile Compatibility"));
    ghost var c2 := checks.checks;
    var frames := p.body.frameCount;
    checks.AddCheck("No Frames", PassIf(frames == 0, Fail), "Frame elements",
                    NatToString(frames) + " found", "Remove frames", High, Some("Mobile Compatibility"));
    Appended3(before, TouchVerdicts(p));
    Prefixes3(c0, c1, c2, checks.checks);
  }

  method AddLayoutChecks(checks: CheckList, p: Page)
    modifies checks
    ensures Project(checks.checks) == Project(old(checks.checks)) + LayoutVerdicts(p)
    ensures ValuesBounded(old(checks.checks)) ==> ValuesBounded(checks.checks)
    ensures old(checks.checks) <= checks.checks
  {
    ghost var before := Project(checks.checks);
    ghost var c0 := checks.checks;
    var fixedWidth := p.patterns.fixedWidths;
    checks.AddCheck("No Fixed Width", PassIf(fixedWidth == 0, Warning), "Fixed width elements",
                    NatToString(fixedWidth) + " found", "Use responsive widths", Medium, Some("Responsiveness"));
    ghost var c1 := checks.checks;
    var smallFonts := p.patterns.smallFonts;
    checks.AddCheck("Readable Font Size", PassIf(smallFonts < 3, Warning), "Small fonts",
                    NatToString(smallFonts) + " found", "Use 16px+ base font size", Medium, Some("Readability"));
    Appended2(before, LayoutVerdicts(p));
    Prefixes2(c0, c1, checks.checks);
  }

  method AddUxChecks(checks: CheckList, p: Page)
    modifies checks
    ensures Project(checks.checks) == Project(old(checks.checks)) + UxVerdicts(p)
    ensures ValuesBounded(old(checks.checks)) ==> ValuesBounded(checks.checks)
    ensures old(checks.checks) <= checks.checks
  {
    ghost var c0 := checks.checks;
    AddTouchChecks(checks, p);
    ghost var c1 := checks.checks;
    AddLayoutChecks(checks, p);
    Prefixes2(c0, c1, checks.checks);
  }

  method AddWeightChecks(checks: CheckList, p: Page)
    modifies checks
    ensures Project(checks.checks) == Project(old(checks.checks)) + WeightVerdicts(p)
    ensures ValuesBounded(old(checks.checks)) ==> ValuesBounded(checks.checks)
    ensures old(checks.checks) <= checks.checks
  {
    ghost var before := Project(checks.checks);
    ghost var c0 := checks.checks;
    var images := p.body.images;
    checks.AddCheck("Image Lazy Loading", LazyStatus(images), "Lazy loaded",
                    NatToString(|LazyImages(images)|) + "/" + NatToString(|images|), "Add loading=\"lazy\" for mobile", High, Some("Mobile Performance"));
    ghost var c1 := checks.checks;
    var size := p.contentLength;
    checks.AddCheck("Page Weight", PassIf(SizeBelowKb(size, 100), Warning), "HTML size",
                    FormatFixed(size, 1024, 1) + " KB", "Keep HTML under 100KB", Medium, Some("Mobile Performance"));
    ghost var c2 := checks.checks;
    checks.AddCheck("AMP Version", Info, "AMP available",
                    if p.head.amp then "Yes" else "No", "Consider AMP for mobile", Low, Some("Mobile Performance"));
    Appended3(before, WeightVerdicts(p));
    Prefixes3(c0, c1, c2, checks.checks);
  }

  method AddIntegrationChecks(checks: CheckList, p: Page)
    modifies checks
    ensures Project(checks.checks) == Project(old(checks.checks)) + IntegrationVerdicts(p)
    ensures ValuesBounded(old(checks.checks)) ==> ValuesBounded(checks.checks)
    ensures old(checks.checks) <= checks.checks
  {
    ghost var before := Project(checks.checks);
    ghost var c0 := checks.checks;
    checks.AddCheck("App Deep Links", Info, "App links",
                    NatToString(p.head.appLinkCount) + " found", "Add app deep links if applicable", Low, Some("Mobile Integration"));
    ghost var c1 := checks.checks;
    var tel := HrefScheme(p.body.anchors, "tel:");
    checks.AddCheck("Click-to-Call", PassIf(tel != [], Info), "Phone links",
                    NatToString(|tel|) + " found", "Add tel: links for mobile", Medium, Some("Mobile UX"));
    Appended2(before, IntegrationVerdicts(p));
    Prefixes2(c0, c1, checks.checks);
  }

  method AddPerformanceChecks(checks: CheckList, p: Page)
    modifies checks
    ensures Project(checks.checks) == Project(old(checks.checks)) + PerformanceVerdicts(p)
    ensures ValuesBounded(old(checks.checks)) ==> ValuesBounded(checks.checks)
    ensures old(checks.checks) <= checks.checks
  {
    ghost var c0 := checks.checks;
    AddWeightChecks(checks, p);
    ghost var c1 := checks.checks;
    AddIntegrationChecks(checks, p);
    Prefixes2(c0, c1, checks.checks);
  }

  /** `analyze_mobile_seo(url, soup, response, load_time)` */
  method Analyze(p: Page) returns (r: CategoryResult)
    ensures Consistent(r) && |r.checks| == Count
    ensures Yields(Project(r.checks), p)
    ensures ValuesBounded(r.checks)
  {
    var checks := new CheckList();
    ghost var v0 := Project(checks.checks);
    AddResponsivenessChecks(checks, p);
    ghost var v1 := Project(checks.checks);
    AddUxChecks(checks, p);
    ghost var v2 := Project(checks.checks);
    AddPerformanceChecks(checks, p);
    Chained3(v0, v1, v2, Project(checks.checks), ResponsivenessVerdicts(p), UxVerdicts(p), PerformanceVerdicts(p));
    r := Summarize(checks.checks);
  }

  // ----- Properties -----

  /**
   * Without a viewport tag the tag and width checks fail and the scale check
   * warns, while "Zoom Enabled" passes: an absent tag disables nothing.
   */
  lemma MissingViewport(p: Page)
    requires p.head.viewport.None?
    ensures ViewportVerdicts(p) == [Verdict("Viewport Meta Tag", Fail), Verdict("Viewport Width", Fail),
                                    Verdict("Initial Scale", Warning)]
    ensures ScalingVerdicts(p)[0] == Verdict("Zoom Enabled", Pass)
  {
    NotContainsShort("", "width=");
    NotContainsShort("", "initial-scale");
    NotContainsShort("", "user-scalable=no");
    NotContainsShort("", "maximum-scale=1");
  }

  /** "Touch Targets" passes exactly when small targets are under 10% of buttons and links, computed exactly. */
  lemma TouchTargetsMeaning(p: Page)
    ensures TouchVerdicts(p)[0].status == Pass <==>
      (|SmallTargets(p)| as real) < |p.body.touchStyles| as real * 0.1
  {
    FewSmallTargetsExact(|SmallTargets(p)|, |p.body.touchStyles|);
  }

  /** As written, a page with no buttons or links at all warns on "Touch Targets" (`0 < 0 * 0.1` is false). */
  lemma NoTargetsWarn(p: Page)
    requires p.body.touchStyles == []
    ensures TouchVerdicts(p)[0] == Verdict("Touch Targets", Warning)
  {
  }

  /** "Page Weight" passes exactly when the response is under 100 KiB. */
  lemma PageWeightMeaning(p: Page)
    ensures WeightVerdicts(p)[1].status == Pass <==> p.contentLength as real / 1024.0 < 100.0
  {
    SizeBelowKbExact(p.contentLength, 100);
  }
}
