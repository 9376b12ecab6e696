/** The On-Page SEO analyzer: title and meta tags, headings, images and content structure (app.py:199-307). */
module OnPage {
  import opened Options
  import opened Text
  import opened Lists
  import opened Checks
  import opened Page
  import opened Rules
  import opened ImageRules

  /** Number of records the analyzer emits on every page. */
  const Count: nat := 24

  /** `title.string.strip() if title and title.string else ''` */
  function TitleText(p: Page): string {
    if p.head.title.Some? then Strip(p.head.title.value) else ""
  }

  /** `title_text.lower().split()` */
  function TitleWords(p: Page): seq<string> {
    Words(Lower(TitleText(p)))
  }

  /** `meta_desc.get('content', '').strip() if meta_desc else ''` */
  function DescriptionText(p: Page): string {
    if p.head.description.Some? then Strip(p.head.description.value) else ""
  }

  /** `s[:n] + '...' if len(s) > n else s or 'Missing'` */
  function Preview(s: string, n: nat): (r: string)
    ensures |s| > n ==> r == Take(s, n) + "..."
    ensures s == "" ==> r == "Missing"
    ensures 0 < |s| <= n ==> r == s
  {
    if |s| > n then Take(s, n) + "..." else OrElse(s, "Missing")
  }

  function H1s(p: Page): seq<Heading> {
    HeadingsAt(p.body.headings, 1)
  }

  /** `h1_tags[0].get_text().strip() if h1_tags else ''` */
  function H1Text(p: Page): string {
    if H1s(p) != [] then Strip(H1s(p)[0].text) else ""
  }

  function EmptyHeadings(hs: seq<Heading>): seq<Heading> {
    Filter(hs, (h: Heading) => Strip(h.text) == "")
  }

  // ----- Checks 1-8: title and meta -----

  function TitleVerdicts(p: Page): (vs: seq<Verdict>)
    ensures |vs| == 3
  {
    [ Verdict("Title Tag Present", PassIf(TitleText(p) != "", Fail)),
      Verdict("Title Length", PassIf(30 <= |TitleText(p)| <= 60, Warning)),
      Verdict("Title Uniqueness", PassIf(MostlyUnique(DistinctCount(TitleWords(p)), |TitleWords(p)|), Warning)) ]
  }

  function DescriptionVerdicts(p: Page): (vs: seq<Verdict>)
    ensures |vs| == 3
  {
    [ Verdict("Meta Description", PassIf(DescriptionText(p) != "", Fail)),
      Verdict("Description Length", PassIf(120 <= |DescriptionText(p)| <= 160, Warning)),
      Verdict("Meta Keywords", Info) ]
  }

  function HeadExtrasVerdicts(p: Page): (vs: seq<Verdict>)
    ensures |vs| == 2
  {
    [ Verdict("Language Attribute", PassIf(p.head.lang != "", Warning)),
      Verdict("Favicon", PassIf(p.head.favicon, Warning)) ]
  }

  function TitleMetaVerdicts(p: Page): (vs: seq<Verdict>)
    ensures |vs| == 8
  {
    TitleVerdicts(p) + DescriptionVerdicts(p) + HeadExtrasVerdicts(p)
  }

  // ----- Checks 9-14: headings -----

  function HeadingCountVerdicts(p: Page): (vs: seq<Verdict>)
    ensures |vs| == 3
  {
    [ Verdict("H1 Tag", H1Status(|H1s(p)|)),
      Verdict("H1 Content", PassIf(|H1Text(p)| >= 10, Warning)),
      Verdict("H2 Tags", PassIf(2 <= |HeadingsAt(p.body.headings, 2)| <= 10, Warning)) ]
  }

  function HeadingShapeVerdicts(p: Page): (vs: seq<Verdict>)
    ensures |vs| == 3
  {
    [ Verdict("H3 Tags", PassIf(HeadingsAt(p.body.headings, 3) != [], Info)),
      Verdict("No Empty Headings", PassIf(EmptyHeadings(p.body.headings) == [], Warning)),
      Verdict("Heading Hierarchy", PassIf(HierarchyOk(Levels(p.body.headings)), Warning)) ]
  }

  function HeadingVerdicts(p: Page): (vs: seq<Verdict>)
    ensures |vs| == 6
  {
    HeadingCountVerdicts(p) + HeadingShapeVerdicts(p)
  }

  // ----- Checks 15-20: images -----

  function ImageAttrVerdicts(p: Page): (vs: seq<Verdict>)
    ensures |vs| == 3
  {
    [ Verdict("Image Alt Text", AltStatus(p.body.images)),
      Verdict("Image Dimensions", DimensionStatus(p.body.images)),
      Verdict("Lazy Loading", LazyStatus(p.body.images)) ]
  }

  function ImageFormatVerdicts(p: Page): (vs: seq<Verdict>)
    ensures |vs| == 3
  {
    [ Verdict("Responsive Images", SrcsetStatus(p.body.images)),
      Verdict("Modern Image Formats", WebpStatus(p.body.images)),
      Verdict("Meaningful Alt Text", MeaningfulAltStatus(p.body.images)) ]
  }

  function ImageVerdicts(p: Page): (vs: seq<Verdict>)
    ensures |vs| == 6
  {
    ImageAttrVerdicts(p) + ImageFormatVerdicts(p)
  }

  // ----- Checks 21-24: content structure -----

  function BlockVerdicts(p: Page): (vs: seq<Verdict>)
    ensures |vs| == 2
  {
    [ Verdict("Paragraph Count", PassIf(|p.body.paragraphs| >= 3, Warning)),
      Verdict("List Usage", PassIf(p.body.listCount > 0, Info)) ]
  }

  function LengthVerdicts(p: Page): (vs: seq<Verdict>)
    ensures |vs| == 2
  {
    [ Verdict("Word Count", PassIf(WordCount(p) >= 300, Warning)),
      Verdict("Content Depth", TierAtLeast(WordCount(p), 200, 500)) ]
  }

  function StructureVerdicts(p: Page): (vs: seq<Verdict>)
    ensures |vs| == 4
  {
    BlockVerdicts(p) + LengthVerdicts(p)
  }

  /** Name and outcome of each record, in the order the analyzer emits them. */
  function Verdicts(p: Page): (vs: seq<Verdict>)
    ensures |vs| == Count
  {
    TitleMetaVerdicts(p) + HeadingVerdicts(p) + ImageVerdicts(p) + StructureVerdicts(p)
  }

  /**
   * `vs` are the verdicts this analyzer reaches on the page `p`. The equation
   * is stated for every page `q` that is `p`, so that the verifier expands the
   * table only in proofs that mention `Verdicts` itself.
   */
  ghost predicate Yields(vs: seq<Verdict>, p: Page) {
    forall q {:trigger Verdicts(q)} :: SamePage(q, p) ==> vs == Verdicts(q)
  }

  /** The analyzer reaches one outcome per page. */
  lemma YieldsUnique(vs: seq<Verdict>, ws: seq<Verdict>, p: Page)
    requires Yields(vs, p) && Yields(ws, p)
    ensures vs == ws
  {
    assert vs == Verdicts(p);
  }

  /** The table yields itself. */
  lemma YieldsVerdicts(p: Page)
    ensures Yields(Verdicts(p), p)
  { }

  /** What the analyzer yields has one verdict per check. */
  lemma YieldsCount(vs: seq<Verdict>, p: Page)
    requires Yields(vs, p)
    ensures |vs| == Count
  {
    assert vs == Verdicts(p);
  }

  // ----- The analyzer -----

  method AddTitleChecks(checks: CheckList, p: Page)
    modifies checks
    ensures Project(checks.checks) == Project(old(checks.checks)) + TitleVerdicts(p)
    ensures ValuesBounded(old(checks.checks)) ==> ValuesBounded(checks.checks)
    ensures old(checks.checks) <= checks.checks
  {
    ghost var before := Project(checks.checks);
    ghost var c0 := checks.checks;
    var title := TitleText(p);
    checks.AddCheck("Title Tag Present", PassIf(title != "", Fail), "Title tag exists",
                    Preview(title, 50), "Add descriptive title tag", Critical, Some("Title & Meta"));
    ghost var c1 := checks.checks;
    checks.AddCheck("Title Length", PassIf(30 <= |title| <= 60, Warning), "Title characters",
                    NatToString(|title|) + " chars", "Optimize to 50-60 characters", High, Some("Title & Meta"));
    ghost var c2 := checks.checks;
    var words := TitleWords(p);
    var unique := DistinctCount(words);
    checks.AddCheck("Title Uniqueness", PassIf(MostlyUnique(unique, |words|), Warning), "Unique words in title",
                    NatToString(unique) + "/" + NatToString(|words|), "Avoid repetitive words", Medium, Some("Title & Meta"));
    Appended3(before, TitleVerdicts(p));
    Prefixes3(c0, c1, c2, checks.checks);
  }

  method AddDescriptionChecks(checks: CheckList, p: Page)
    modifies checks
    ensures Project(checks.checks) == Project(old(checks.checks)) + DescriptionVerdicts(p)
    ensures ValuesBounded(old(checks.checks)) ==> ValuesBounded(checks.checks)
    ensures old(checks.checks) <= checks.checks
  {
    ghost var before := Project(checks.checks);
    ghost var c0 := checks.checks;
    var desc := DescriptionText(p);
    checks.AddCheck("Meta Description", PassIf(desc != "", Fail), "Description presence",
                    Preview(desc, 60), "Add meta description", High, Some("Title & Meta"));
    ghost var c1 := checks.checks;
    checks.AddCheck("Description Length", PassIf(120 <= |desc| <= 160, Warning), "Description characters",
                    NatToString(|desc|) + " chars", "Optimize to 150-160 characters", High, Some("Title & Meta"));
    ghost var c2 := checks.checks;
    checks.AddCheck("Meta Keywords", Info, "Keywords meta tag",
                    if p.head.keywords then "Present" else "Not set (OK - deprecated)",
                    "Meta keywords are deprecated", Low, Some("Title & Meta"));
    Appended3(before, DescriptionVerdicts(p));
    Prefixes3(c0, c1, c2, checks.checks);
  }

  method AddHeadExtrasChecks(checks: CheckList, p: Page)
    modifies checks
    ensures Project(checks.checks) == Project(old(checks.checks)) + HeadExtrasVerdicts(p)
    ensures ValuesBounded(old(checks.checks)) ==> ValuesBounded(checks.checks)
    ensures old(checks.checks) <= checks.checks
  {
    ghost var before := Project(checks.checks);
    ghost var c0 := checks.checks;
    var lang := p.head.lang;
    checks.AddCheck("Language Attribute", PassIf(lang != "", Warning), "HTML lang attribute",
                    OrElse(lang, "Not set"), "Add lang attribute", Medium, Some("Title & Meta"));
    ghost var c1 := checks.checks;
    var favicon := p.head.favicon;
    checks.AddCheck("Favicon", PassIf(favicon, Warning), "Site icon",
                    if favicon then "Present" else "Missing", "Add favicon", Low, Some("Title & Meta"));
    Appended2(before, HeadExtrasVerdicts(p));
    Prefixes2(c0, c1, checks.checks);
  }

  method AddTitleMetaChecks(checks: CheckList, p: Page)
    modifies checks
    ensures Project(checks.checks) == Project(old(checks.checks)) + TitleMetaVerdicts(p)
    ensures ValuesBounded(old(checks.checks)) ==> ValuesBounded(checks.checks)
    ensures old(checks.checks) <= checks.checks
  {
    ghost var c0 := checks.checks;
    AddTitleChecks(checks, p);
    ghost var c1 := checks.checks;
    AddDescriptionChecks(checks, p);
    ghost var c2 := checks.checks;
    AddHeadExtrasChecks(checks, p);
    Prefixes3(c0, c1, c2, checks.checks);
  }

  method AddHeadingCountChecks(checks: CheckList, p: Page)
    modifies checks
    ensures Project(checks.checks) == Project(old(checks.checks)) + HeadingCountVerdicts(p)
    ensures ValuesBounded(old(checks.checks)) ==> ValuesBounded(checks.checks)
    ensures old(checks.checks) <= checks.checks
  {
    ghost var before := Project(checks.checks);
    ghost var c0 := checks.checks;
    var h1 := H1s(p);
    checks.AddCheck("H1 Tag", H1Status(|h1|), "H1 count",
                    NatToString(|h1|) + " H1 tag(s)", "Use exactly one H1", Critical, Some("Headings"));
    ghost var c1 := checks.checks;
    var h1Text := H1Text(p);
    checks.AddCheck("H1 Content", PassIf(|h1Text| >= 10, Warning), "H1 text length",
                    if h1Text != "" then NatToString(|h1Text|) + " chars" else "Empty", "Write descriptive H1", High, Some("Headings"));
    ghost var c2 := checks.checks;
    var h2 := HeadingsAt(p.body.headings, 2);
    checks.AddCheck("H2 Tags", PassIf(2 <= |h2| <= 10, Warning), "H2 count",
                    NatToString(|h2|) + " H2 tag(s)", "Use 2-6 H2 tags for structure", High, Some("Headings"));
    Appended3(before, HeadingCountVerdicts(p));
    Prefixes3(c0, c1, c2, checks.checks);
  }

  method AddHeadingShapeChecks(checks: CheckList, p: Page)
    modifies checks
    ensures Project(checks.checks) == Project(old(checks.checks)) + HeadingShapeVerdicts(p)
    ensures ValuesBounded(old(checks.checks)) ==> ValuesBounded(checks.checks)
    ensures old(checks.checks) <= checks.checks
  {
    ghost var before := Project(checks.checks);
    ghost var c0 := checks.checks;
    var h3 := HeadingsAt(p.body.headings, 3);
    checks.AddCheck("H3 Tags", PassIf(h3 != [], Info), "H3 count",
                    NatToString(|h3|) + " H3 tag(s)", "Use H3 for subsections", Low, Some("Headings"));
    ghost var c1 := checks.checks;
    var empty := EmptyHeadings(p.body.headings);
    checks.AddCheck("No Empty Headings", PassIf(empty == [], Warning), "Empty headings",
                    NatToString(|empty|) + " empty", "Fill or remove empty headings", Medium, Some("Headings"));
    ghost var c2 := checks.checks;
    var hierarchy := HierarchyOk(Levels(p.body.headings));
    checks.AddCheck("Heading Hierarchy", PassIf(hierarchy, Warning), "Proper heading order",
                    if hierarchy then "Correct" else "Skipped levels", "Follow H1>H2>H3 order", Medium, Some("Headings"));
    Appended3(before, HeadingShapeVerdicts(p));
    Prefixes3(c0, c1, c2, checks.checks);
  }

  method AddHeadingChecks(checks: CheckList, p: Page)
    modifies checks
    ensures Project(checks.checks) == Project(old(checks.checks)) + HeadingVerdicts(p)
    ensures ValuesBounded(old(checks.checks)) ==> ValuesBounded(checks.checks)
    ensures old(checks.checks) <= checks.checks
  {
    ghost var c0 := checks.checks;
    AddHeadingCountChecks(checks, p);
    ghost var c1 := checks.checks;
    AddHeadingShapeChecks(checks, p);
    Prefixes2(c0, c1, checks.checks);
  }

  method AddImageAttrChecks(checks: CheckList, p: Page)
    modifies checks
    ensures Project(checks.checks) == Project(old(checks.checks)) + ImageAttrVerdicts(p)
    ensures ValuesBounded(old(checks.checks)) ==> ValuesBounded(checks.checks)
    ensures old(checks.checks) <= checks.checks
  {
    ghost var before := Project(checks.checks);
    ghost var c0 := checks.checks;
    var images := p.body.images;
    var total := NatToString(|images|);
    checks.AddCheck("Image Alt Text", AltStatus(images), "Alt attributes",
                    NatToString(|AltImages(images)|) + "/" + total, "Add alt to all images", High, Some("Images"));
    ghost var c1 := checks.checks;
    checks.AddCheck("Image Dimensions", DimensionStatus(images), "Width/height set",
                    NatToString(|SizedImages(images)|) + "/" + total, "Specify dimensions to prevent CLS", Medium, Some("Images"));
    ghost var c2 := checks.checks;
    checks.AddCheck("Lazy Loading", LazyStatus(images), "Lazy loaded images",
                    NatToString(|LazyImages(images)|) + "/" + total, "Add loading=\"lazy\"", Medium, Some("Images"));
    Appended3(before, ImageAttrVerdicts(p));
    Prefixes3(c0, c1, c2, checks.checks);
  }

  method AddImageFormatChecks(checks: CheckList, p: Page)
    modifies checks
    ensures Project(checks.checks) == Project(old(checks.checks)) + ImageFormatVerdicts(p)
    ensures ValuesBounded(old(checks.checks)) ==> ValuesBounded(checks.checks)
    ensures old(checks.checks) <= checks.checks
  {
    ghost var before := Project(checks.checks);
    ghost var c0 := checks.checks;
    var images := p.body.images;
    checks.AddCheck("Responsive Images", SrcsetStatus(images), "Srcset usage",
                    NatToString(|SrcsetImages(images)|) + " with srcset", "Use srcset for responsive images", Medium, Some("Images"));
    ghost var c1 := checks.checks;
    checks.AddCheck("Modern Image Formats", WebpStatus(images), "WebP images",
                    NatToString(|WebpImages(images)|) + " WebP", "Consider WebP format", Low, Some("Images"));
    ghost var c2 := checks.checks;
    var emptyAlt := EmptyAltImages(images);
    checks.AddCheck("Meaningful Alt Text", MeaningfulAltStatus(images), "Non-empty alt text",
                    NatToString(|images| - |emptyAlt|) + "/" + NatToString(|images|), "Add descriptive alt text", Medium, Some("Images"));
    Appended3(before, ImageFormatVerdicts(p));
    Prefixes3(c0, c1, c2, checks.checks);
  }

  method AddImageChecks(checks: CheckList, p: Page)
    modifies checks
    ensures Project(checks.checks) == Project(old(checks.checks)) + ImageVerdicts(p)
    ensures ValuesBounded(old(checks.checks)) ==> ValuesBounded(checks.checks)
    ensures old(checks.checks) <= checks.checks
  {
    ghost var c0 := checks.checks;
    AddImageAttrChecks(checks, p);
    ghost var c1 := checks.checks;
    AddImageFormatChecks(checks, p);
    Prefixes2(c0, c1, checks.checks);
  }

  method AddBlockChecks(checks: CheckList, p: Page)
    modifies checks
    ensures Project(checks.checks) == Project(old(checks.checks)) + BlockVerdicts(p)
    ensures ValuesBounded(old(checks.checks)) ==> ValuesBounded(checks.checks)
    ensures old(checks.checks) <= checks.checks
  {
    ghost var before := Project(checks.checks);
    ghost var c0 := checks.checks;
    var paragraphs := |p.body.paragraphs|;
    checks.AddCheck("Paragraph Count", PassIf(paragraphs >= 3, Warning), "Paragraphs",
                    NatToString(paragraphs) + " paragraphs", "Use paragraphs for readability", Medium, Some("Content Structure"));
    ghost var c1 := checks.checks;
    var lists := p.body.listCount;
    checks.AddCheck("List Usage", PassIf(lists > 0, Info), "Lists present",
                    NatToString(lists) + " lists", "Use lists for scannability", Low, Some("Content Structure"));
    Appended2(before, BlockVerdicts(p));
    Prefixes2(c0, c1, checks.checks);
  }

  method AddLengthChecks(checks: CheckList, p: Page)
    modifies checks
    ensures Project(checks.checks) == Project(old(checks.checks)) + LengthVerdicts(p)
    ensures ValuesBounded(old(checks.checks)) ==> ValuesBounded(checks.checks)
    ensures old(checks.checks) <= checks.checks
  {
    ghost var before := Project(checks.checks);
    ghost var c0 := checks.checks;
    var words := WordCount(p);
    checks.AddCheck("Word Count", PassIf(words >= 300, Warning), "Content length",
                    NatToString(words) + " words", "Aim for 300+ words", Medium, Some("Content Structure"));
    ghost var c1 := checks.checks;
    checks.AddCheck("Content Depth", TierAtLeast(words, 200, 500), "Content substance",
                    if words >= 500 then "Comprehensive" else "Thin content", "Add more valuable content", High, Some("Content Structure"));
    Appended2(before, LengthVerdicts(p));
    Prefixes2(c0, c1, checks.checks);
  }

  method AddStructureChecks(checks: CheckList, p: Page)
    modifies checks
    ensures Project(checks.checks) == Project(old(checks.checks)) + StructureVerdicts(p)
    ensures ValuesBounded(old(checks.checks)) ==> ValuesBounded(checks.checks)
    ensures old(checks.checks) <= checks.checks
  {
    ghost var c0 := checks.checks;
    AddBlockChecks(checks, p);
    ghost var c1 := checks.checks;
    AddLengthChecks(checks, p);
    Prefixes2(c0, c1, checks.checks);
  }

  /** `analyze_onpage_seo(url, soup, response, load_time)` */
  method Analyze(p: Page) returns (r: CategoryResult)
    ensures Consistent(r) && |r.checks| == Count
    ensures Yields(Project(r.checks), p)
    ensures ValuesBounded(r.checks)
  {
    var checks := new CheckList();
    ghost var v0 := Project(checks.checks);
    AddTitleMetaChecks(checks, p);
    ghost var v1 := Project(checks.checks);
    AddHeadingChecks(checks, p);
    ghost var v2 := Project(checks.checks);
    AddImageChecks(checks, p);
    ghost var v3 := Project(checks.checks);
    AddStructureChecks(checks, p);
    Chained4(v0, v1, v2, v3, Project(checks.checks),
             TitleMetaVerdicts(p), HeadingVerdicts(p), ImageVerdicts(p), StructureVerdicts(p));
    r := Summarize(checks.checks);
  }

  // ----- Properties -----

  /** A title in which no word repeats passes "Title Uniqueness". */
  lemma DistinctTitlePasses(p: Page)
    requires forall i, j :: 0 <= i < j < |TitleWords(p)| ==> TitleWords(p)[i] != TitleWords(p)[j]
    ensures TitleVerdicts(p)[2] == Verdict("Title Uniqueness", Pass)
  {
    DistinctCountBound(TitleWords(p));
  }

  /** "Heading Hierarchy" passes exactly when no heading is more than one level below the one before it. */
  lemma HierarchyMeaning(p: Page)
    ensures HeadingShapeVerdicts(p)[2].status == Pass <==>
      forall i :: 1 <= i < |p.body.headings| ==> p.body.headings[i].level <= p.body.headings[i - 1].level + 1
  {
  }

  /** A page without images passes all six image checks. */
  lemma NoImagesPassAll(p: Page)
    requires p.body.images == []
    ensures forall k :: 0 <= k < 6 ==> ImageVerdicts(p)[k].status == Pass
  {
    NoImagesPass(p.body.images);
  }

  /** Passing "Content Depth" (500 words) implies passing "Word Count" (300); failing it (under 200) implies a warning there. */
  lemma DepthImpliesWordCount(p: Page)
    ensures LengthVerdicts(p)[1].status == Pass ==> LengthVerdicts(p)[0].status == Pass
    ensures LengthVerdicts(p)[1].status == Fail ==> LengthVerdicts(p)[0].status == Warning
  {
  }
}
