/** The Social SEO analyzer: Open Graph, Twitter cards and social integration (app.py:668-724). */
module Social {
  import opened Options
  import opened Text
  import opened Lists
  import opened Checks
  import opened Page
  import opened Rules

  /** Number of records the analyzer emits on every page. */
  const Count: nat := 10

  /** Networks whose profile links are counted (searched case-insensitively in hrefs). */
  const Networks: seq<string> := ["facebook", "twitter", "linkedin", "instagram", "youtube", "tiktok"]

  function SocialLinks(p: Page): seq<Anchor> {
    HrefMentions(p.body.anchors, Networks)
  }

  /** `'Set' if own else ('Falls back to OG' if og else 'Not set')` */
  function FallbackValue(own: bool, og: bool): string {
    if own then "Set" else if og then "Falls back to OG" else "Not set"
  }

  /** `'Set' if tag else 'Not set'` */
  function SetValue(tag: bool): string {
    if tag then "Set" else "Not set"
  }

  // ----- Checks 1-5: Open Graph -----

  function OgCoreVerdicts(p: Page): (vs: seq<Verdict>)
    ensures |vs| == 3
  {
    [ Verdict("OG Title", PassIf(p.head.ogTitle.Some?, Warning)),
      Verdict("OG Description", PassIf(p.head.ogDescription.Some?, Warning)),
      Verdict("OG Image", PassIf(p.head.ogImage.Some?, Warning)) ]
  }

  function OgExtraVerdicts(p: Page): (vs: seq<Verdict>)
    ensures |vs| == 2
  {
    [ Verdict("OG URL", PassIf(p.head.ogUrl.Some?, Info)),
      Verdict("OG Type", PassIf(p.head.ogType.Some?, Info)) ]
  }

  function OpenGraphVerdicts(p: Page): (vs: seq<Verdict>)
    ensures |vs| == 5
  {
    OgCoreVerdicts(p) + OgExtraVerdicts(p)
  }

  // ----- Checks 6-8: Twitter cards -----

  function TwitterVerdicts(p: Page): (vs: seq<Verdict>)
    ensures |vs| == 3
  {
    [ Verdict("Twitter Card", PassIf(p.head.twitterCard.Some?, Warning)),
      Verdict("Twitter Title", PassIf(p.head.twitterTitle || p.head.ogTitle.Some?, Warning)),
      Verdict("Twitter Image", PassIf(p.head.twitterImage || p.head.ogImage.Some?, Warning)) ]
  }

  // ----- Checks 9-10: social integration -----

  function IntegrationVerdicts(p: Page): (vs: seq<Verdict>)
    ensures |vs| == 2
  {
    [ Verdict("Social Profile Links", PassIf(SocialLinks(p) != [], Info)),
      Verdict("Share Buttons", PassIf(p.body.shareCount > 0, Info)) ]
  }

  /** Name and outcome of each record, in the order the analyzer emits them. */
  function Verdicts(p: Page): (vs: seq<Verdict>)
    ensures |vs| == Count
  {
    OpenGraphVerdicts(p) + TwitterVerdicts(p) + IntegrationVerdicts(p)
  }

  /**
   * `vs` are the verdicts this analyzer reaches on the page `p`. The equation
   * is stated for every page `q` that is `p`, so that the verifier expands the
   * table only in proofs that mention `Verdicts` itself.
   */
  ghost predicate Yields(vs: seq<Verdict>, p: Page) {
    forall q {:trigger Verdicts(q)} :: SamePage(q, p) ==> vs == Verdicts(q)
  }

  /** The analyzer reaches one outcome per page. */
  lemma YieldsUnique(vs: seq<Verdict>, ws: seq<Verdict>, p: Page)
    requires Yields(vs, p) && Yields(ws, p)
    ensures vs == ws
  {
    assert vs == Verdicts(p);
  }

  /** The table yields itself. */
  lemma YieldsVerdicts(p: Page)
    ensures Yields(Verdicts(p), p)
  { }

  /** What the analyzer yields has one verdict per check. */
  lemma YieldsCount(vs: seq<Verdict>, p: Page)
    requires Yields(vs, p)
    ensures |vs| == Count
  {
    assert vs == Verdicts(p);
  }

  // ----- The analyzer -----

  method AddOgCoreChecks(checks: CheckList, p: Page)
    modifies checks
    ensures Project(checks.checks) == Project(old(checks.checks)) + OgCoreVerdicts(p)
    ensures ValuesBounded(old(checks.checks)) ==> ValuesBounded(checks.checks)
    ensures old(checks.checks) <= checks.checks
  {
    ghost var before := Project(checks.checks);
    ghost var c0 := checks.checks;
    var ogTitle := p.head.ogTitle;
    checks.AddCheck("OG Title", PassIf(ogTitle.Some?, Warning), "Open Graph title",
                    if ogTitle.Some? then Take(ogTitle.value, 50) else "Not set", "Add og:title meta tag", High, Some("Open Graph"));
    ghost var c1 := checks.checks;
    var ogDesc := p.head.ogDescription.Some?;
    checks.AddCheck("OG Description", PassIf(ogDesc, Warning), "Open Graph description",
                    SetValue(ogDesc), "Add og:description meta tag", High, Some("Open Graph"));
    ghost var c2 := checks.checks;
    var ogImage := p.head.ogImage.Some?;
    checks.AddCheck("OG Image", PassIf(ogImage, Warning), "Open Graph image",
                    SetValue(ogImage), "Add og:image (1200x630px recommended)", High, Some("Open Graph"));
    Appended3(before, OgCoreVerdicts(p));
    Prefixes3(c0, c1, c2, checks.checks);
  }

  method AddOgExtraChecks(checks: CheckList, p: Page)
    modifies checks
    ensures Project(checks.checks) == Project(old(checks.checks)) + OgExtraVerdicts(p)
    ensures ValuesBounded(old(checks.checks)) ==> ValuesBounded(checks.checks)
    ensures old(checks.checks) <= checks.checks
  {
    ghost var before := Project(checks.checks);
    ghost var c0 := checks.checks;
    var ogUrl := p.head.ogUrl.Some?;
    checks.AddCheck("OG URL", PassIf(ogUrl, Info), "Open Graph URL",
                    SetValue(ogUrl), "Add og:url meta tag", Medium, Some("Open Graph"));
    ghost var c1 := checks.checks;
    var ogType := p.head.ogType;
    checks.AddCheck("OG Type", PassIf(ogType.Some?, Info), "Open Graph type",
                    if ogType.Some? then ogType.value else "Not set", "Add og:type meta tag", Low, Some("Open Graph"));
    Appended2(before, OgExtraVerdicts(p));
    Prefixes2(c0, c1, checks.checks);
  }

  method AddOpenGraphChecks(checks: CheckList, p: Page)
    modifies checks
    ensures Project(checks.checks) == Project(old(checks.checks)) + OpenGraphVerdicts(p)
    ensures ValuesBounded(old(checks.checks)) ==> ValuesBounded(checks.checks)
    ensures old(checks.checks) <= checks.checks
  {
    ghost var c0 := checks.checks;
    AddOgCoreChecks(checks, p);
    ghost var c1 := checks.checks;
    AddOgExtraChecks(checks, p);
    Prefixes2(c0, c1, checks.checks);
  }

  method AddTwitterChecks(checks: CheckList, p: Page)
    modifies checks
    ensures Project(checks.checks) == Project(old(checks.checks)) + TwitterVerdicts(p)
    ensures ValuesBounded(old(checks.checks)) ==> ValuesBounded(checks.checks)
    ensures old(checks.checks) <= checks.checks
  {
    ghost var before := Project(checks.checks);
    ghost var c0 := checks.checks;
    var card := p.head.twitterCard;
    checks.AddCheck("Twitter Card", PassIf(card.Some?, Warning), "Twitter card type",
                    if card.Some? then card.value else "Not set", "Add twitter:card meta tag", Medium, Some("Twitter"));
    ghost var c1 := checks.checks;
    var title, ogTitle := p.head.twitterTitle, p.head.ogTitle.Some?;
    checks.AddCheck("Twitter Title", PassIf(title || ogTitle, Warning), "Twitter title",
                    FallbackValue(title, ogTitle), "Add twitter:title or og:title", Medium, Some("Twitter"));
    ghost var c2 := checks.checks;
    var image, ogImage := p.head.twitterImage, p.head.ogImage.Some?;
    checks.AddCheck("Twitter Image", PassIf(image || ogImage, Warning), "Twitter image",
                    FallbackValue(image, ogImage), "Add twitter:image or og:image", Medium, Some("Twitter"));
    Appended3(before, TwitterVerdicts(p));
    Prefixes3(c0, c1, c2, checks.checks);
  }

  method AddIntegrationChecks(checks: CheckList, p: Page)
    modifies checks
    ensures Project(checks.checks) == Project(old(checks.checks)) + IntegrationVerdicts(p)
    ensures ValuesBounded(old(checks.checks)) ==> ValuesBounded(checks.checks)
    ensures old(checks.checks) <= checks.checks
  {
    ghost var before := Project(checks.checks);
    ghost var c0 := checks.checks;
    var links := SocialLinks(p);
    checks.AddCheck("Social Profile Links", PassIf(links != [], Info), "Social media links",
                    NatToString(|links|) + " found", "Link to social profiles", Low, Some("Social Integration"));
    ghost var c1 := checks.checks;
    var share := p.body.shareCount;
    checks.AddCheck("Share Buttons", PassIf(share > 0, Info), "Share functionality",
                    NatToString(share) + " found", "Add social share buttons", Low, Some("Social Integration"));
    Appended2(before, IntegrationVerdicts(p));
    Prefixes2(c0, c1, checks.checks);
  }

  /** `analyze_social_seo(url, soup, response, load_time)` */
  method Analyze(p: Page) returns (r: CategoryResult)
    ensures Consistent(r) && |r.checks| == Count
    ensures Yields(Project(r.checks), p)
    ensures ValuesBounded(r.checks)
  {
    var checks := new CheckList();
    ghost var v0 := Project(checks.checks);
    AddOpenGraphChecks(checks, p);
    ghost var v1 := Project(checks.checks);
    AddTwitterChecks(checks, p);
    ghost var v2 := Project(checks.checks);
    AddIntegrationChecks(checks, p);
    Chained3(v0, v1, v2, Project(checks.checks), OpenGraphVerdicts(p), TwitterVerdicts(p), IntegrationVerdicts(p));
    r := Summarize(checks.checks);
  }

  // ----- Properties -----

  /**
   * The Twitter title and image checks accept the Open Graph tag in place of
   * their own: each warns exactly when both tags are missing, so a page whose
   * Open Graph title and image pass also passes both.
   */
  lemma TwitterFallsBackToOpenGraph(p: Page)
    ensures TwitterVerdicts(p)[1].status == Warning <==> !p.head.twitterTitle && p.head.ogTitle.None?
    ensures TwitterVerdicts(p)[2].status == Warning <==> !p.head.twitterImage && p.head.ogImage.None?
    ensures OgCoreVerdicts(p)[0].status == Pass && OgCoreVerdicts(p)[2].status == Pass ==>
      TwitterVerdicts(p)[1].status == Pass && TwitterVerdicts(p)[2].status == Pass
  {
  }

  /** "Social Profile Links" passes exactly when some link's href names one of the networks, in any letter case. */
  lemma SocialLinksMeaning(p: Page)
    ensures IntegrationVerdicts(p)[0].status == Pass <==>
      exists a :: a in p.body.anchors && MentionsAny(Lower(a.href), Networks)
  {
    var links := SocialLinks(p);
    if links != [] {
      assert links[0] in links;
    }
  }
}
