/** The Content SEO analyzer: content quality, linking and E-E-A-T signals (app.py:317-412). */
module Content {
  import opened Options
  import opened Text
  import opened Lists
  import opened Checks
  import opened Page
  import opened Rules

  /** Number of records the analyzer emits on every page. */
  const Count: nat := 18

  const AuthorTerms: seq<string> := ["author", "written by", "posted by", "byline"]
  const DateTerms: seq<string> := ["updated", "published", "modified", "date"]
  const TrustPageTerms: seq<string> := ["about", "contact", "team"]
  const CitationTerms: seq<string> := ["according to", "source:", "study shows", "research", "cited"]
  const ExpertiseTerms: seq<string> := ["years of experience", "certified", "expert", "professional", "specialist"]

  /** Paragraphs with more than 20 characters of trimmed text. */
  function SubstantialParagraphs(p: Page): seq<string> {
    Filter(p.body.paragraphs, (s: string) => |Strip(s)| > 20)
  }

  /** Sentences of more than three words. */
  function LongSentences(p: Page): seq<string> {
    Filter(p.patterns.sentences, (s: string) => |Words(s)| > 3)
  }

  /** `w.lower()` for each word of more than three characters. */
  function VocabularyWords(p: Page): (ws: seq<string>)
    ensures |ws| <= WordCount(p)
  {
    var long := Filter(PageWords(p), (w: string) => |w| > 3);
    seq(|long|, i requires 0 <= i < |long| => Lower(long[i]))
  }

  function UniqueWords(p: Page): nat {
    DistinctCount(VocabularyWords(p))
  }

  function ExternalLinks(t: Target, p: Page): seq<Anchor> {
    ExternalAnchors(t, p.body.anchors)
  }

  function NofollowExternal(t: Target, p: Page): seq<Anchor> {
    WithRel(ExternalLinks(t, p), "nofollow")
  }

  /** Anchors whose rel mentions `sponsored` or `ugc`. */
  function QualifiedLinks(p: Page): seq<Anchor> {
    Filter(p.body.anchors, (a: Anchor) => Contains(a.rel, "sponsored") || Contains(a.rel, "ugc"))
  }

  /** "Link Qualification": no outbound links, or some link is qualified by its rel. */
  predicate LinksQualified(t: Target, p: Page) {
    ExternalLinks(t, p) == [] || QualifiedLinks(p) != [] || NofollowExternal(t, p) != []
  }

  // ----- Checks 1-7: content quality -----

  function ProseVerdicts(p: Page): (vs: seq<Verdict>)
    ensures |vs| == 3
  {
    [ Verdict("Content Length", TierAtLeast(WordCount(p), 300, 1000)),
      Verdict("Paragraph Structure", PassIf(|SubstantialParagraphs(p)| >= 5, Warning)),
      Verdict("Sentence Length", PassIf(SentenceLengthOk(WordCount(p), |LongSentences(p)|), Warning)) ]
  }

  function VocabularyVerdicts(p: Page): (vs: seq<Verdict>)
    ensures |vs| == 2
  {
    [ Verdict("Vocabulary Diversity", PassIf(DiverseVocabulary(UniqueWords(p), WordCount(p)), Warning)),
      Verdict("Engaging Questions", PassIf(CountChar(p.text, '?') >= 1, Info)) ]
  }

  function EnrichmentVerdicts(p: Page): (vs: seq<Verdict>)
    ensures |vs| == 2
  {
    [ Verdict("Data & Statistics", PassIf(p.patterns.numbers >= 3, Info)),
      Verdict("Text Emphasis", PassIf(p.body.emphasisCount > 0, Info)) ]
  }

  function QualityVerdicts(p: Page): (vs: seq<Verdict>)
    ensures |vs| == 7
  {
    ProseVerdicts(p) + VocabularyVerdicts(p) + EnrichmentVerdicts(p)
  }

  // ----- Checks 8-12: linking -----

  function LinkCountVerdicts(t: Target, p: Page): (vs: seq<Verdict>)
    ensures |vs| == 3
  {
    [ Verdict("Internal Links", PassIf(3 <= |InternalAnchors(t, p.body.anchors)| <= 100, Warning)),
      Verdict("External Links", PassIf(ExternalLinks(t, p) != [], Info)),
      Verdict("Link Density", PassIf(LinkDensityOk(|p.body.anchors|, WordCount(p)), Warning)) ]
  }

  function LinkRelVerdicts(t: Target, p: Page): (vs: seq<Verdict>)
    ensures |vs| == 2
  {
    [ Verdict("External Nofollow", Info),
      Verdict("Link Qualification", PassIf(LinksQualified(t, p), Info)) ]
  }

  function LinkingVerdicts(t: Target, p: Page): (vs: seq<Verdict>)
    ensures |vs| == 5
  {
    LinkCountVerdicts(t, p) + LinkRelVerdicts(t, p)
  }

  // ----- Checks 13-18: E-E-A-T signals -----

  function AuthorshipVerdicts(p: Page): (vs: seq<Verdict>)
    ensures |vs| == 3
  {
    [ Verdict("Author Attribution", PassIf(MentionsAny(Lower(p.html), AuthorTerms), Warning)),
      Verdict("Content Date", PassIf(MentionsAny(Lower(p.html), DateTerms), Warning)),
      Verdict("Trust Pages Linked", PassIf(HrefMentions(p.body.anchors, TrustPageTerms) != [], Info)) ]
  }

  function ExpertiseVerdicts(p: Page): (vs: seq<Verdict>)
    ensures |vs| == 3
  {
    [ Verdict("Source Citations", PassIf(MentionsAny(Lower(p.text), CitationTerms), Info)),
      Verdict("Expertise Signals", PassIf(MentionsAny(Lower(p.text), ExpertiseTerms), Info)),
      Verdict("Contact Information", PassIf(p.patterns.contact, Info)) ]
  }

  function TrustVerdicts(p: Page): (vs: seq<Verdict>)
    ensures |vs| == 6
  {
    AuthorshipVerdicts(p) + ExpertiseVerdicts(p)
  }

  /** Name and outcome of each record, in the order the analyzer emits them. */
  function Verdicts(t: Target, p: Page): (vs: seq<Verdict>)
    ensures |vs| == Count
  {
    QualityVerdicts(p) + LinkingVerdicts(t, p) + TrustVerdicts(p)
  }

  /**
   * `vs` are the verdicts this analyzer reaches on the page `p`. The equation
   * is stated for every page `q` that is `p`, so that the verifier expands the
   * table only in proofs that mention `Verdicts` itself.
   */
  ghost predicate Yields(vs: seq<Verdict>, t: Target, p: Page) {
    forall q {:trigger Verdicts(t, q)} :: SamePage(q, p) ==> vs == Verdicts(t, q)
  }

  /** The analyzer reaches one outcome per page. */
  lemma YieldsUnique(vs: seq<Verdict>, ws: seq<Verdict>, t: Target, p: Page)
    requires Yields(vs, t, p) && Yields(ws, t, p)
    ensures vs == ws
  {
    assert vs == Verdicts(t, p);
  }

  /** The table yields itself. */
  lemma YieldsVerdicts(t: Target, p: Page)
    ensures Yields(Verdicts(t, p), t, p)
  { }

  /** What the analyzer yields has one verdict per check. */
  lemma YieldsCount(vs: seq<Verdict>, t: Target, p: Page)
    requires Yields(vs, t, p)
    ensures |vs| == Count
  {
    assert vs == Verdicts(t, p);
  }

  // ----- The analyzer -----

  method AddProseChecks(checks: CheckList, p: Page)
    modifies checks
    ensures Project(checks.checks) == Project(old(checks.checks)) + ProseVerdicts(p)
    ensures ValuesBounded(old(checks.checks)) ==> ValuesBounded(checks.checks)
    ensures old(checks.checks) <= checks.checks
  {
    ghost var before := Project(checks.checks);
    ghost var c0 := checks.checks;
    var words := WordCount(p);
    checks.AddCheck("Content Length", TierAtLeast(words, 300, 1000), "Word count",
                    NatToString(words) + " words", "1000+ words for comprehensive content", High, Some("Content Quality"));
    ghost var c1 := checks.checks;
    var paragraphs := |SubstantialParagraphs(p)|;
    checks.AddCheck("Paragraph Structure", PassIf(paragraphs >= 5, Warning), "Substantial paragraphs",
                    NatToString(paragraphs) + " paragraphs", "Use 5+ meaningful paragraphs", Medium, Some("Content Quality"));
    ghost var c2 := checks.checks;
    var sentences := |LongSentences(p)|;
    checks.AddCheck("Sentence Length", PassIf(SentenceLengthOk(words, sentences), Warning), "Average sentence length",
                    FormatQuotient(words, sentences, 1) + " words", "Aim for 15-20 words per sentence", Medium, Some("Content Quality"));
    Appended3(before, ProseVerdicts(p));
    Prefixes3(c0, c1, c2, checks.checks);
  }

  method AddVocabularyChecks(checks: CheckList, p: Page)
    modifies checks
    ensures Project(checks.checks) == Project(old(checks.checks)) + VocabularyVerdicts(p)
    ensures ValuesBounded(old(checks.checks)) ==> ValuesBounded(checks.checks)
    ensures old(checks.checks) <= checks.checks
  {
    ghost var before := Project(checks.checks);
    ghost var c0 := checks.checks;
    var words := WordCount(p);
    var unique := UniqueWords(p);
    checks.AddCheck("Vocabulary Diversity", PassIf(DiverseVocabulary(unique, words), Warning), "Unique words ratio",
                    FormatQuotient(100 * unique, words, 0) + "% unique", "Use varied vocabulary", Low, Some("Content Quality"));
    ghost var c1 := checks.checks;
    var questions := CountChar(p.text, '?');
    checks.AddCheck("Engaging Questions", PassIf(questions >= 1, Info), "Questions in content",
                    NatToString(questions) + " questions", "Include questions for engagement", Low, Some("Content Quality"));
    Appended2(before, VocabularyVerdicts(p));
    Prefixes2(c0, c1, checks.checks);
  }

  method AddEnrichmentChecks(checks: CheckList, p: Page)
    modifies checks
    ensures Project(checks.checks) == Project(old(checks.checks)) + EnrichmentVerdicts(p)
    ensures ValuesBounded(old(checks.checks)) ==> ValuesBounded(checks.checks)
    ensures old(checks.checks) <= checks.checks
  {
    ghost var before := Project(checks.checks);
    ghost var c0 := checks.checks;
    var numbers := p.patterns.numbers;
    checks.AddCheck("Data & Statistics", PassIf(numbers >= 3, Info), "Numerical data",
                    NatToString(numbers) + " data points", "Include statistics for credibility", Medium, Some("Content Quality"));
    ghost var c1 := checks.checks;
    var emphasis := p.body.emphasisCount;
    checks.AddCheck("Text Emphasis", PassIf(emphasis > 0, Info), "Emphasized text",
                    NatToString(emphasis) + " elements", "Use bold for key points", Low, Some("Content Quality"));
    Appended2(before, EnrichmentVerdicts(p));
    Prefixes2(c0, c1, checks.checks);
  }

  method AddQualityChecks(checks: CheckList, p: Page)
    modifies checks
    ensures Project(checks.checks) == Project(old(checks.checks)) + QualityVerdicts(p)
    ensures ValuesBounded(old(checks.checks)) ==> ValuesBounded(checks.checks)
    ensures old(checks.checks) <= checks.checks
  {
    ghost var c0 := checks.checks;
    AddProseChecks(checks, p);
    ghost var c1 := checks.checks;
    AddVocabularyChecks(checks, p);
    ghost var c2 := checks.checks;
    AddEnrichmentChecks(checks, p);
    Prefixes3(c0, c1, c2, checks.checks);
  }

  method AddLinkCountChecks(checks: CheckList, t: Target, p: Page)
    modifies checks
    ensures Project(checks.checks) == Project(old(checks.checks)) + LinkCountVerdicts(t, p)
    ensures ValuesBounded(old(checks.checks)) ==> ValuesBounded(checks.checks)
    ensures old(checks.checks) <= checks.checks
  {
    ghost var before := Project(checks.checks);
    ghost var c0 := checks.checks;
    var internal := InternalAnchors(t, p.body.anchors);
    checks.AddCheck("Internal Links", PassIf(3 <= |internal| <= 100, Warning), "Internal linking",
                    NatToString(|internal|) + " links", "Add 3-10 internal links", High, Some("Linking"));
    ghost var c1 := checks.checks;
    var external := ExternalLinks(t, p);
    checks.AddCheck("External Links", PassIf(external != [], Info), "Outbound links",
                    NatToString(|external|) + " links", "Link to authority sources", Medium, Some("Linking"));
    ghost var c2 := checks.checks;
    var links := |p.body.anchors|;
    var words := WordCount(p);
    checks.AddCheck("Link Density", PassIf(LinkDensityOk(links, words), Warning), "Links per 100 words",
                    FormatQuotient(100 * links, words, 1), "Maintain 1-5 links per 100 words", Medium, Some("Linking"));
    Appended3(before, LinkCountVerdicts(t, p));
    Prefixes3(c0, c1, c2, checks.checks);
  }

  method AddLinkRelChecks(checks: CheckList, t: Target, p: Page)
    modifies checks
    ensures Project(checks.checks) == Project(old(checks.checks)) + LinkRelVerdicts(t, p)
    ensures ValuesBounded(old(checks.checks)) ==> ValuesBounded(checks.checks)
    ensures old(checks.checks) <= checks.checks
  {
    ghost var before := Project(checks.checks);
    ghost var c0 := checks.checks;
    var nofollow := NofollowExternal(t, p);
    checks.AddCheck("External Nofollow", Info, "Nofollow external links",
                    NatToString(|nofollow|) + "/" + NatToString(|ExternalLinks(t, p)|),
                    "Consider nofollow for untrusted links", Low, Some("Linking"));
    ghost var c1 := checks.checks;
    var sponsored := QualifiedLinks(p);
    checks.AddCheck("Link Qualification", PassIf(LinksQualified(t, p), Info), "Qualified links",
                    NatToString(|sponsored|) + " sponsored/ugc", "Use rel attributes appropriately", Low, Some("Linking"));
    Appended2(before, LinkRelVerdicts(t, p));
    Prefixes2(c0, c1, checks.checks);
  }

  method AddLinkingChecks(checks: CheckList, t: Target, p: Page)
    modifies checks
    ensures Project(checks.checks) == Project(old(checks.checks)) + LinkingVerdicts(t, p)
    ensures ValuesBounded(old(checks.checks)) ==> ValuesBounded(checks.checks)
    ensures old(checks.checks) <= checks.checks
  {
    ghost var c0 := checks.checks;
    AddLinkCountChecks(checks, t, p);
    ghost var c1 := checks.checks;
    AddLinkRelChecks(checks, t, p);
    Prefixes2(c0, c1, checks.checks);
  }

  method AddAuthorshipChecks(checks: CheckList, p: Page)
    modifies checks
    ensures Project(checks.checks) == Project(old(checks.checks)) + AuthorshipVerdicts(p)
    ensures ValuesBounded(old(checks.checks)) ==> ValuesBounded(checks.checks)
    ensures old(checks.checks) <= checks.checks
  {
    ghost var before := Project(checks.checks);
    ghost var c0 := checks.checks;
    var markup := Lower(p.html);
    var author := MentionsAny(markup, AuthorTerms);
    checks.AddCheck("Author Attribution", PassIf(author, Warning), "Author info",
                    if author then "Present" else "Not found", "Add author bio for E-E-A-T", High, Some("E-E-A-T"));
    ghost var c1 := checks.checks;
    var dated := MentionsAny(markup, DateTerms);
    checks.AddCheck("Content Date", PassIf(dated, Warning), "Date visible",
                    if dated then "Present" else "Not found", "Show publish/update date", Medium, Some("E-E-A-T"));
    ghost var c2 := checks.checks;
    var about := HrefMentions(p.body.anchors, TrustPageTerms) != [];
    checks.AddCheck("Trust Pages Linked", PassIf(about, Info), "About/Contact links",
                    if about then "Found" else "Not found", "Link to About/Contact pages", Medium, Some("E-E-A-T"));
    Appended3(before, AuthorshipVerdicts(p));
    Prefixes3(c0, c1, c2, checks.checks);
  }

  method AddExpertiseChecks(checks: CheckList, p: Page)
    modifies checks
    ensures Project(checks.checks) == Project(old(checks.checks)) + ExpertiseVerdicts(p)
    ensures ValuesBounded(old(checks.checks)) ==> ValuesBounded(checks.checks)
    ensures old(checks.checks) <= checks.checks
  {
    ghost var before := Project(checks.checks);
    ghost var c0 := checks.checks;
    var prose := Lower(p.text);
    var citations := MentionsAny(prose, CitationTerms);
    checks.AddCheck("Source Citations", PassIf(citations, Info), "Citations present",
                    if citations then "Found" else "Not found", "Cite authoritative sources", Medium, Some("E-E-A-T"));
    ghost var c1 := checks.checks;
    var expertise := MentionsAny(prose, ExpertiseTerms);
    checks.AddCheck("Expertise Signals", PassIf(expertise, Info), "Expertise indicators",
                    if expertise then "Found" else "Not found", "Demonstrate expertise", Medium, Some("E-E-A-T"));
    ghost var c2 := checks.checks;
    var contact := p.patterns.contact;
    checks.AddCheck("Contact Information", PassIf(contact, Info), "Contact details",
                    if contact then "Found" else "Not found", "Provide contact information", Medium, Some("E-E-A-T"));
    Appended3(before, ExpertiseVerdicts(p));
    Prefixes3(c0, c1, c2, checks.checks);
  }

  method AddTrustChecks(checks: CheckList, p: Page)
    modifies checks
    ensures Project(checks.checks) == Project(old(checks.checks)) + TrustVerdicts(p)
    ensures ValuesBounded(old(checks.checks)) ==> ValuesBounded(checks.checks)
    ensures old(checks.checks) <= checks.checks
  {
    ghost var c0 := checks.checks;
    AddAuthorshipChecks(checks, p);
    ghost var c1 := checks.checks;
    AddExpertiseChecks(checks, p);
    Prefixes2(c0, c1, checks.checks);
  }

  /** `analyze_content_seo(url, soup, response, load_time)` */
  method Analyze(t: Target, p: Page) returns (r: CategoryResult)
    ensures Consistent(r) && |r.checks| == Count
    ensures Yields(Project(r.checks), t, p)
    ensures ValuesBounded(r.checks)
  {
    var checks := new CheckList();
    ghost var v0 := Project(checks.checks);
    AddQualityChecks(checks, p);
    ghost var v1 := Project(checks.checks);
    AddLinkingChecks(checks, t, p);
    ghost var v2 := Project(checks.checks);
    AddTrustChecks(checks, p);
    Chained3(v0, v1, v2, Project(checks.checks), QualityVerdicts(p), LinkingVerdicts(t, p), TrustVerdicts(p));
    r := Summarize(checks.checks);
  }

  // ----- Properties -----

  /** "Sentence Length" passes exactly when words per long sentence, computed exactly, lie in [10, 20]. */
  lemma SentenceLengthMeaning(p: Page)
    ensures ProseVerdicts(p)[2].status == Pass <==> 10.0 <= Ratio(WordCount(p), |LongSentences(p)|) <= 20.0
  {
    SentenceLengthExact(WordCount(p), |LongSentences(p)|);
  }

  /** "Vocabulary Diversity" passes exactly when the unique-word ratio exceeds 0.3. */
  lemma VocabularyMeaning(p: Page)
    ensures VocabularyVerdicts(p)[0].status == Pass <==> Ratio(UniqueWords(p), WordCount(p)) > 0.3
  {
    DiverseVocabularyExact(UniqueWords(p), WordCount(p));
  }

  /** "Link Density" passes exactly when there are 1 to 10 links per 100 words; a page without words warns. */
  lemma LinkDensityMeaning(t: Target, p: Page)
    ensures LinkCountVerdicts(t, p)[2].status == Pass <==> 1.0 <= LinkDensity(|p.body.anchors|, WordCount(p)) <= 10.0
    ensures WordCount(p) == 0 ==> LinkCountVerdicts(t, p)[2].status == Warning
  {
    LinkDensityExact(|p.body.anchors|, WordCount(p));
  }

  /** A page without outbound links has nothing to qualify and passes "Link Qualification". */
  lemma NoExternalQualified(t: Target, p: Page)
    requires forall a :: a in p.body.anchors ==> !StartsWith(a.href, "http") || Contains(a.href, t.netloc)
    ensures LinkRelVerdicts(t, p)[1] == Verdict("Link Qualification", Pass)
  {
    FilterNone(p.body.anchors, (a: Anchor) => StartsWith(a.href, "http") && !Contains(a.href, t.netloc));
  }
}
