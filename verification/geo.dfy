/**
 * The GEO/AEO analyzer (generative-engine and answer-engine optimization):
 * structured data, semantic structure, interpretability, snippet readiness,
 * and trust and freshness signals (app.py:834-1049).
 */
module Geo {
  import opened Options
  import opened Text
  import opened Lists
  import opened Checks
  import opened Page
  import opened Rules

  /** Number of records the analyzer emits on every page. */
  const Count: nat := 30

  const EntitySchemas: seq<string> := ["Person", "Organization", "Product", "Place", "Event", "Article", "WebPage"]
  const AnswerWords: seq<string> := ["is", "are", "means", "provides", "helps", "allows"]
  const PronounStarts: seq<string> := ["it ", "this ", "that ", "they "]
  /** `' ' + w + ' '` for each conversational word. */
  const ConversationalPhrases: seq<string> := [" you ", " your ", " you're ", " we ", " our ", " we're "]
  const GenericHeadings: seq<string> := ["introduction", "conclusion", "overview", "summary", "more"]
  const ExamplePhrases: seq<string> := ["for example", "such as", "e.g.", "for instance", "like this", "including", "specifically"]
  const CitationTerms: seq<string> := ["according to", "source:", "cited", "reference", "study shows", "research", "data from"]

  /** `sum(s.count(sub) for sub in subs)` */
  function CountAll(s: string, subs: seq<string>): nat {
    if subs == [] then 0 else Occurrences(s, subs[0]) + CountAll(s, subs[1..])
  }

  /** `[s for s in entity_schemas if s in html]` */
  function EntitiesFound(p: Page): seq<string> {
    Filter(EntitySchemas, (e: string) => Contains(p.html, e))
  }

  /** The text of the first `<p>`, or nothing when there is none. */
  function FirstParagraph(p: Page): string {
    if p.body.paragraphs != [] then p.body.paragraphs[0] else ""
  }

  predicate StartsWithPronoun(sentence: string) {
    exists i :: 0 <= i < |PronounStarts| && StartsWith(Strip(Lower(sentence)), PronounStarts[i])
  }

  function PronounSentences(p: Page): seq<string> {
    Filter(p.patterns.sentences, StartsWithPronoun)
  }

  /** Words longer than twelve characters. */
  function ComplexWords(p: Page): seq<string> {
    Filter(PageWords(p), (w: string) => |w| > 12)
  }

  function ConversationalCount(p: Page): nat {
    CountAll(Lower(p.text), ConversationalPhrases)
  }

  /** `<h1>` … `<h4>`, the headings this analyzer reads. */
  function UpperHeadings(p: Page): seq<Heading> {
    Filter(p.body.headings, (h: Heading) => h.level <= 4)
  }

  function QuestionHeadings(p: Page): seq<Heading> {
    Filter(UpperHeadings(p), (h: Heading) => Contains(h.text, "?"))
  }

  /** At least three words, and not one of the generic headings. */
  predicate IsDescriptive(h: Heading) {
    |Words(h.text)| >= 3 && Strip(Lower(h.text)) !in GenericHeadings
  }

  function DescriptiveHeadings(p: Page): seq<Heading> {
    Filter(UpperHeadings(p), IsDescriptive)
  }

  /** Paragraphs over a hundred words. */
  function LongParagraphs(p: Page): seq<string> {
    Filter(p.body.paragraphs, (s: string) => |Words(s)| > 100)
  }

  function SectionCount(p: Page): nat {
    |HeadingsAt(p.body.headings, 2)| + |HeadingsAt(p.body.headings, 3)|
  }

  function ExampleCount(p: Page): nat {
    CountAll(Lower(p.text), ExamplePhrases)
  }

  /** Author signals in markup: `'author' in html.lower() and ('Person' in html or 'name' in html)` */
  predicate AuthorSchema(p: Page) {
    Contains(Lower(p.html), "author") && (Contains(p.html, "Person") || Contains(p.html, "name"))
  }

  predicate HasCitations(t: Target, p: Page) {
    MentionsAny(Lower(p.text), CitationTerms) || |ExternalAnchors(t, p.body.anchors)| >= 2
  }

  function PresentValue(flag: bool): string {
    if flag then "Present" else "Not found"
  }

  // ----- Checks 1-6: structured data for AI parsing -----

  function SchemaVerdicts(p: Page): (vs: seq<Verdict>)
    ensures |vs| == 3
  {
    [ Verdict("JSON-LD Structured Data", PassIf(p.body.jsonLd != [], Fail)),
      Verdict("FAQ Schema", PassIf(Contains(p.html, "FAQPage") || Contains(p.html, "\"Question\""), Warning)),
      Verdict("HowTo Schema", PassIf(Contains(p.html, "HowTo"), Info)) ]
  }

  function EntityVerdicts(p: Page): (vs: seq<Verdict>)
    ensures |vs| == 3
  {
    [ Verdict("Entity Schema Markup", PassIf(EntitiesFound(p) != [], Warning)),
      Verdict("Speakable Schema", PassIf(Contains(Lower(p.html), "speakable"), Info)),
      Verdict("Entity sameAs Links", PassIf(Contains(p.html, "sameAs"), Info)) ]
  }

  function ParsingVerdicts(p: Page): (vs: seq<Verdict>)
    ensures |vs| == 6
  {
    SchemaVerdicts(p) + EntityVerdicts(p)
  }

  // ----- Checks 7-12: semantic HTML and structure -----

  function LayoutVerdicts(p: Page): (vs: seq<Verdict>)
    ensures |vs| == 3
  {
    [ Verdict("Semantic HTML5", PassIf(p.body.semanticCount >= 3, Warning)),
      Verdict("Data Tables", PassIf(p.body.tableCount > 0, Info)),
      Verdict("Structured Lists", PassIf(p.body.listCount >= 2, Warning)) ]
  }

  function AnnotationVerdicts(p: Page): (vs: seq<Verdict>)
    ensures |vs| == 3
  {
    [ Verdict("Figure Captions", PassIf(p.body.figcaptionCount > 0, Info)),
      Verdict("Definition Lists", PassIf(p.body.definitionListCount > 0, Info)),
      Verdict("Blockquote Citations", PassIf(p.body.blockquoteCount > 0, Info)) ]
  }

  function SemanticVerdicts(p: Page): (vs: seq<Verdict>)
    ensures |vs| == 6
  {
    LayoutVerdicts(p) + AnnotationVerdicts(p)
  }

  // ----- Checks 13-18: LLM interpretability -----

  function AnswerVerdicts(p: Page): (vs: seq<Verdict>)
    ensures |vs| == 3
  {
    [ Verdict("Q&A Patterns", PassIf(p.patterns.questions >= 2, Warning)),
      Verdict("Direct Definitions", PassIf(p.patterns.definitions > 0, Warning)),
      Verdict("Answer-First Writing", PassIf(MentionsAny(Lower(FirstParagraph(p)), AnswerWords), Warning)) ]
  }

  function StyleVerdicts(p: Page): (vs: seq<Verdict>)
    ensures |vs| == 3
  {
    [ Verdict("Self-Contained Sentences", PassIf(FewPronounStarts(|PronounSentences(p)|, |p.patterns.sentences|), Warning)),
      Verdict("Plain Language", PassIf(PlainLanguage(|ComplexWords(p)|, WordCount(p)), Warning)),
      Verdict("Conversational Tone", PassIf(Conversational(ConversationalCount(p), WordCount(p)), Info)) ]
  }

  function InterpretabilityVerdicts(p: Page): (vs: seq<Verdict>)
    ensures |vs| == 6
  {
    AnswerVerdicts(p) + StyleVerdicts(p)
  }

  // ----- Checks 19-24: passage ranking and snippet readiness -----

  function HeadingVerdicts(p: Page): (vs: seq<Verdict>)
    ensures |vs| == 3
  {
    [ Verdict("Question Headings", PassIf(QuestionHeadings(p) != [], Warning)),
      Verdict("Descriptive Headings", PassIf(AtLeastHalf(|DescriptiveHeadings(p)|, |UpperHeadings(p)|), Warning)),
      Verdict("Concise Paragraphs", PassIf(|LongParagraphs(p)| <= 2, Warning)) ]
  }

  function PassageVerdicts(p: Page): (vs: seq<Verdict>)
    ensures |vs| == 3
  {
    [ Verdict("Section Granularity", PassIf(SectionsOk(SectionCount(p), WordCount(p)), Warning)),
      Verdict("Step-by-Step Format", PassIf(p.patterns.steps > 0 || p.body.orderedListCount > 0, Info)),
      Verdict("Concrete Examples", PassIf(ExampleCount(p) >= 2, Info)) ]
  }

  function SnippetVerdicts(p: Page): (vs: seq<Verdict>)
    ensures |vs| == 6
  {
    HeadingVerdicts(p) + PassageVerdicts(p)
  }

  // ----- Checks 25-30: trust, freshness and AI optimization -----

  function FreshnessVerdicts(p: Page): (vs: seq<Verdict>)
    ensures |vs| == 3
  {
    [ Verdict("Content Timestamps", PassIf(p.body.timeCount > 0 || p.head.articleDate, Warning)),
      Verdict("Last-Modified Header", PassIf(Header(p, "Last-Modified") != "", Info)),
      Verdict("Author Attribution", PassIf(p.body.authorClassCount > 0 || AuthorSchema(p), Warning)) ]
  }

  function OptimizationVerdicts(t: Target, p: Page): (vs: seq<Verdict>)
    ensures |vs| == 3
  {
    [ Verdict("Source Citations", PassIf(HasCitations(t, p), Warning)),
      Verdict("LLMs.txt File", PassIf(Found(p.llmsProbe), Info)),
      Verdict("AI-Friendly Length", AiLengthStatus(WordCount(p))) ]
  }

  function TrustVerdicts(t: Target, p: Page): (vs: seq<Verdict>)
    ensures |vs| == 6
  {
    FreshnessVerdicts(p) + OptimizationVerdicts(t, p)
  }

  /** Name and outcome of each record, in the order the analyzer emits them. */
  function Verdicts(t: Target, p: Page): (vs: seq<Verdict>)
    ensures |vs| == Count
  {
    ParsingVerdicts(p) + SemanticVerdicts(p) + InterpretabilityVerdicts(p) + SnippetVerdicts(p) + TrustVerdicts(t, p)
  }

  /**
   * `vs` are the verdicts this analyzer reaches on the page `p`. The equation
   * is stated for every page `q` that is `p`, so that the verifier expands the
   * table only in proofs that mention `Verdicts` itself.
   */
  ghost predicate Yields(vs: seq<Verdict>, t: Target, p: Page) {
    forall q {:trigger Verdicts(t, q)} :: SamePage(q, p) ==> vs == Verdicts(t, q)
  }

  /** The analyzer reaches one outcome per page. */
  lemma YieldsUnique(vs: seq<Verdict>, ws: seq<Verdict>, t: Target, p: Page)
    requires Yields(vs, t, p) && Yields(ws, t, p)
    ensures vs == ws
  {
    assert vs == Verdicts(t, p);
  }

  /** The table yields itself. */
  lemma YieldsVerdicts(t: Target, p: Page)
    ensures Yields(Verdicts(t, p), t, p)
  { }

  /** What the analyzer yields has one verdict per check. */
  lemma YieldsCount(vs: seq<Verdict>, t: Target, p: Page)
    requires Yields(vs, t, p)
    ensures |vs| == Count
  {
    assert vs == Verdicts(t, p);
  }

  // ----- The analyzer -----

  method AddSchemaChecks(checks: CheckList, p: Page)
    modifies checks
    ensures Project(checks.checks) == Project(old(checks.checks)) + SchemaVerdicts(p)
    ensures ValuesBounded(old(checks.checks)) ==> ValuesBounded(checks.checks)
    ensures old(checks.checks) <= checks.checks
  {
    ghost var before := Project(checks.checks);
    ghost var c0 := checks.checks;
    var jsonLd := p.body.jsonLd;
    checks.AddCheck("JSON-LD Structured Data", PassIf(jsonLd != [], Fail), "Schema.org markup for AI",
                    NatToString(|jsonLd|) + " blocks", "Add JSON-LD schema for AI understanding", Critical, Some("AI Parsing"));
    ghost var c1 := checks.checks;
    var faq := Contains(p.html, "FAQPage") || Contains(p.html, "\"Question\"");
    checks.AddCheck("FAQ Schema", PassIf(faq, Warning), "FAQPage structured data",
                    PresentValue(faq), "Add FAQPage schema for AI snippets", Critical, Some("AI Parsing"));
    ghost var c2 := checks.checks;
    var howTo := Contains(p.html, "HowTo");
    checks.AddCheck("HowTo Schema", PassIf(howTo, Info), "Step-by-step schema",
                    PresentValue(howTo), "Add HowTo schema for instructions", High, Some("AI Parsing"));
    Appended3(before, SchemaVerdicts(p));
    Prefixes3(c0, c1, c2, checks.checks);
  }

  method AddEntityChecks(checks: CheckList, p: Page)
    modifies checks
    ensures Project(checks.checks) == Project(old(checks.checks)) + EntityVerdicts(p)
    ensures ValuesBounded(old(checks.checks)) ==> ValuesBounded(checks.checks)
    ensures old(checks.checks) <= checks.checks
  {
    ghost var before := Project(checks.checks);
    ghost var c0 := checks.checks;
    var entities := EntitiesFound(p);
    checks.AddCheck("Entity Schema Markup", PassIf(entities != [], Warning), "Schema.org entities",
                    if entities != [] then Join(entities, ", ") else "None found",
                    "Add entity schemas (Person, Organization, Article)", High, Some("AI Parsing"));
    ghost var c1 := checks.checks;
    var speakable := Contains(Lower(p.html), "speakable");
    checks.AddCheck("Speakable Schema", PassIf(speakable, Info), "Voice assistant optimization",
                    PresentValue(speakable), "Add Speakable schema for voice search", Medium, Some("AI Parsing"));
    ghost var c2 := checks.checks;
    var sameAs := Contains(p.html, "sameAs");
    checks.AddCheck("Entity sameAs Links", PassIf(sameAs, Info), "Entity disambiguation",
                    PresentValue(sameAs), "Add sameAs links to Wikipedia/social profiles", Medium, Some("AI Parsing"));
    Appended3(before, EntityVerdicts(p));
    Prefixes3(c0, c1, c2, checks.checks);
  }

  method AddParsingChecks(checks: CheckList, p: Page)
    modifies checks
    ensures Project(checks.checks) == Project(old(checks.checks)) + ParsingVerdicts(p)
    ensures ValuesBounded(old(checks.checks)) ==> ValuesBounded(checks.checks)
    ensures old(checks.checks) <= checks.checks
  {
    ghost var c0 := checks.checks;
    ghost var v0 := Project(checks.checks);
    AddSchemaChecks(checks, p);
    ghost var v1 := Project(checks.checks);
    ghost var c1 := checks.checks;
    AddEntityChecks(checks, p);
    Extended(v0, v1, Project(checks.checks), SchemaVerdicts(p), EntityVerdicts(p));
    Prefixes2(c0, c1, checks.checks);
  }

  method AddLayoutChecks(checks: CheckList, p: Page)
    modifies checks
    ensures Project(checks.checks) == Project(old(checks.checks)) + LayoutVerdicts(p)
    ensures ValuesBounded(old(checks.checks)) ==> ValuesBounded(checks.checks)
    ensures old(checks.checks) <= checks.checks
  {
    ghost var before := Project(checks.checks);
    ghost var c0 := checks.checks;
    var semantic := p.body.semanticCount;
    checks.AddCheck("Semantic HTML5", PassIf(semantic >= 3, Warning), "Semantic structure",
                    NatToString(semantic) + " elements", "Use semantic HTML for AI comprehension", High, Some("Semantic Structure"));
    ghost var c1 := checks.checks;
    var tables := p.body.tableCount;
    checks.AddCheck("Data Tables", PassIf(tables > 0, Info), "Tabular data",
                    NatToString(tables) + " tables", "Use tables for structured comparisons", Medium, Some("Semantic Structure"));
    ghost var c2 := checks.checks;
    var lists := p.body.listCount;
    checks.AddCheck("Structured Lists", PassIf(lists >= 2, Warning), "Lists for AI extraction",
                    NatToString(lists) + " lists", "Use bullet/numbered lists for key points", High, Some("Semantic Structure"));
    Appended3(before, LayoutVerdicts(p));
    Prefixes3(c0, c1, c2, checks.checks);
  }

  method AddAnnotationChecks(checks: CheckList, p: Page)
    modifies checks
    ensures Project(checks.checks) == Project(old(checks.checks)) + AnnotationVerdicts(p)
    ensures ValuesBounded(old(checks.checks)) ==> ValuesBounded(checks.checks)
    ensures old(checks.checks) <= checks.checks
  {
    ghost var before := Project(checks.checks);
    ghost var c0 := checks.checks;
    var captions := p.body.figcaptionCount;
    checks.AddCheck("Figure Captions", PassIf(captions > 0, Info), "Image context for AI",
                    NatToString(captions) + " captions", "Use figcaption for image descriptions", Medium, Some("Semantic Structure"));
    ghost var c1 := checks.checks;
    var dl := p.body.definitionListCount;
    checks.AddCheck("Definition Lists", PassIf(dl > 0, Info), "Term definitions",
                    NatToString(dl) + " definition lists", "Use <dl> for glossary/definitions", Low, Some("Semantic Structure"));
    ghost var c2 := checks.checks;
    var quotes := p.body.blockquoteCount;
    checks.AddCheck("Blockquote Citations", PassIf(quotes > 0, Info), "Quoted content",
                    NatToString(quotes) + " blockquotes", "Use blockquote for expert citations", Low, Some("Semantic Structure"));
    Appended3(before, AnnotationVerdicts(p));
    Prefixes3(c0, c1, c2, checks.checks);
  }

  method AddSemanticChecks(checks: CheckList, p: Page)
    modifies checks
    ensures Project(checks.checks) == Project(old(checks.checks)) + SemanticVerdicts(p)
    ensures ValuesBounded(old(checks.checks)) ==> ValuesBounded(checks.checks)
    ensures old(checks.checks) <= checks.checks
  {
    ghost var c0 := checks.checks;
    ghost var v0 := Project(checks.checks);
    AddLayoutChecks(checks, p);
    ghost var v1 := Project(checks.checks);
    ghost var c1 := checks.checks;
    AddAnnotationChecks(checks, p);
    Extended(v0, v1, Project(checks.checks), LayoutVerdicts(p), AnnotationVerdicts(p));
    Prefixes2(c0, c1, checks.checks);
  }

  method AddAnswerChecks(checks: CheckList, p: Page)
    modifies checks
    ensures Project(checks.checks) == Project(old(checks.checks)) + AnswerVerdicts(p)
    ensures ValuesBounded(old(checks.checks)) ==> ValuesBounded(checks.checks)
    ensures old(checks.checks) <= checks.checks
  {
    ghost var before := Project(checks.checks);
    ghost var c0 := checks.checks;
    var questions := p.patterns.questions;
    checks.AddCheck("Q&A Patterns", PassIf(questions >= 2, Warning), "Question-answer format",
                    NatToString(questions) + " questions", "Include Q&A format for AI snippets", Critical, Some("LLM Interpretability"));
    ghost var c1 := checks.checks;
    var definitions := p.patterns.definitions;
    checks.AddCheck("Direct Definitions", PassIf(definitions > 0, Warning), "Clear definitions",
                    NatToString(definitions) + " found", "Provide direct \"X is...\" definitions", Critical, Some("LLM Interpretability"));
    ghost var c2 := checks.checks;
    var answerFirst := MentionsAny(Lower(FirstParagraph(p)), AnswerWords);
    checks.AddCheck("Answer-First Writing", PassIf(answerFirst, Warning), "Inverted pyramid style",
                    if answerFirst then "Key info upfront" else "Buried lede", "Lead with the answer, not background", High, Some("LLM Interpretability"));
    Appended3(before, AnswerVerdicts(p));
    Prefixes3(c0, c1, c2, checks.checks);
  }

  method AddStyleChecks(checks: CheckList, p: Page)
    modifies checks
    ensures Project(checks.checks) == Project(old(checks.checks)) + StyleVerdicts(p)
    ensures ValuesBounded(old(checks.checks)) ==> ValuesBounded(checks.checks)
    ensures old(checks.checks) <= checks.checks
  {
    ghost var before := Project(checks.checks);
    ghost var c0 := checks.checks;
    var sentences := |p.patterns.sentences|;
    var pronoun := |PronounSentences(p)|;
    checks.AddCheck("Self-Contained Sentences", PassIf(FewPronounStarts(pronoun, sentences), Warning), "Extractable sentences",
                    FormatQuotient(100 * pronoun, sentences, 0) + "% start with pronouns",
                    "Avoid starting sentences with it/this/that", High, Some("LLM Interpretability"));
    ghost var c1 := checks.checks;
    var words := WordCount(p);
    var complex := |ComplexWords(p)|;
    checks.AddCheck("Plain Language", PassIf(PlainLanguage(complex, words), Warning), "Accessible language",
                    FormatQuotient(100 * complex, words, 1) + "% complex words", "Use simple, clear language for AI", High, Some("LLM Interpretability"));
    ghost var c2 := checks.checks;
    var conversational := ConversationalCount(p);
    checks.AddCheck("Conversational Tone", PassIf(Conversational(conversational, words), Info), "Natural language style",
                    FormatQuotient(100 * conversational, words, 2) + "%", "Use conversational you/we language", Medium, Some("LLM Interpretability"));
    Appended3(before, StyleVerdicts(p));
    Prefixes3(c0, c1, c2, checks.checks);
  }

  method AddInterpretabilityChecks(checks: CheckList, p: Page)
    modifies checks
    ensures Project(checks.checks) == Project(old(checks.checks)) + InterpretabilityVerdicts(p)
    ensures ValuesBounded(old(checks.checks)) ==> ValuesBounded(checks.checks)
    ensures old(checks.checks) <= checks.checks
  {
    ghost var c0 := checks.checks;
    ghost var v0 := Project(checks.checks);
    AddAnswerChecks(checks, p);
    ghost var v1 := Project(checks.checks);
    ghost var c1 := checks.checks;
    AddStyleChecks(checks, p);
    Extended(v0, v1, Project(checks.checks), AnswerVerdicts(p), StyleVerdicts(p));
    Prefixes2(c0, c1, checks.checks);
  }

  method AddHeadingChecks(checks: CheckList, p: Page)
    modifies checks
    ensures Project(checks.checks) == Project(old(checks.checks)) + HeadingVerdicts(p)
    ensures ValuesBounded(old(checks.checks)) ==> ValuesBounded(checks.checks)
    ensures old(checks.checks) <= checks.checks
  {
    ghost var before := Project(checks.checks);
    ghost var c0 := checks.checks;
    var questionHeadings := QuestionHeadings(p);
    checks.AddCheck("Question Headings", PassIf(questionHeadings != [], Warning), "Prompt-aligned headings",
                    NatToString(|questionHeadings|) + " question headings", "Use questions as headings (What is X?)", Critical, Some("Snippet Readiness"));
    ghost var c1 := checks.checks;
    var headings := |UpperHeadings(p)|;
    var descriptive := |DescriptiveHeadings(p)|;
    checks.AddCheck("Descriptive Headings", PassIf(AtLeastHalf(descriptive, headings), Warning), "Context-rich headings",
                    NatToString(descriptive) + "/" + NatToString(headings) + " descriptive", "Use specific, descriptive headings", High, Some("Snippet Readiness"));
    ghost var c2 := checks.checks;
    var longParagraphs := |LongParagraphs(p)|;
    checks.AddCheck("Concise Paragraphs", PassIf(longParagraphs <= 2, Warning), "Paragraph length",
                    NatToString(longParagraphs) + " paragraphs over 100 words", "Keep paragraphs under 100 words", High, Some("Snippet Readiness"));
    Appended3(before, HeadingVerdicts(p));
    Prefixes3(c0, c1, c2, checks.checks);
  }

  method AddPassageChecks(checks: CheckList, p: Page)
    modifies checks
    ensures Project(checks.checks) == Project(old(checks.checks)) + PassageVerdicts(p)
    ensures ValuesBounded(old(checks.checks)) ==> ValuesBounded(checks.checks)
    ensures old(checks.checks) <= checks.checks
  {
    ghost var before := Project(checks.checks);
    ghost var c0 := checks.checks;
    var h2, h3 := |HeadingsAt(p.body.headings, 2)|, |HeadingsAt(p.body.headings, 3)|;
    checks.AddCheck("Section Granularity", PassIf(SectionsOk(SectionCount(p), WordCount(p)), Warning), "Heading density",
                    NatToString(h2) + " H2s, " + NatToString(h3) + " H3s", "Add more subheadings for passage ranking", High, Some("Snippet Readiness"));
    ghost var c1 := checks.checks;
    var steps, ordered := p.patterns.steps, p.body.orderedListCount;
    checks.AddCheck("Step-by-Step Format", PassIf(steps > 0 || ordered > 0, Info), "Sequential instructions",
                    NatToString(steps) + " step indicators, " + NatToString(ordered) + " ordered lists",
                    "Structure how-to content with numbered steps", Medium, Some("Snippet Readiness"));
    ghost var c2 := checks.checks;
    var examples := ExampleCount(p);
    checks.AddCheck("Concrete Examples", PassIf(examples >= 2, Info), "Specific examples",
                    NatToString(examples) + " example phrases", "Include specific examples for clarity", Medium, Some("Snippet Readiness"));
    Appended3(before, PassageVerdicts(p));
    Prefixes3(c0, c1, c2, checks.checks);
  }

  method AddSnippetChecks(checks: CheckList, p: Page)
    modifies checks
    ensures Project(checks.checks) == Project(old(checks.checks)) + SnippetVerdicts(p)
    ensures ValuesBounded(old(checks.checks)) ==> ValuesBounded(checks.checks)
    ensures old(checks.checks) <= checks.checks
  {
    ghost var c0 := checks.checks;
    ghost var v0 := Project(checks.checks);
    AddHeadingChecks(checks, p);
    ghost var v1 := Project(checks.checks);
    ghost var c1 := checks.checks;
    AddPassageChecks(checks, p);
    Extended(v0, v1, Project(checks.checks), HeadingVerdicts(p), PassageVerdicts(p));
    Prefixes2(c0, c1, checks.checks);
  }

  method AddFreshnessChecks(checks: CheckList, p: Page)
    modifies checks
    ensures Project(checks.checks) == Project(old(checks.checks)) + FreshnessVerdicts(p)
    ensures ValuesBounded(old(checks.checks)) ==> ValuesBounded(checks.checks)
    ensures old(checks.checks) <= checks.checks
  {
    ghost var before := Project(checks.checks);
    ghost var c0 := checks.checks;
    var times := p.body.timeCount;
    checks.AddCheck("Content Timestamps", PassIf(times > 0 || p.head.articleDate, Warning), "Freshness signals",
                    NatToString(times) + " time elements", "Add visible publish/update dates", High, Some("Trust & Freshness"));
    ghost var c1 := checks.checks;
    var lastModified := Header(p, "Last-Modified");
    checks.AddCheck("Last-Modified Header", PassIf(lastModified != "", Info), "HTTP freshness",
                    if lastModified != "" then "Set" else "Not set", "Set Last-Modified header for freshness", Medium, Some("Trust & Freshness"));
    ghost var c2 := checks.checks;
    var authorClasses := p.body.authorClassCount;
    checks.AddCheck("Author Attribution", PassIf(authorClasses > 0 || AuthorSchema(p), Warning), "E-E-A-T author signals",
                    if authorClasses > 0 then "Found" else "Not found", "Add visible author name and bio", Critical, Some("Trust & Freshness"));
    Appended3(before, FreshnessVerdicts(p));
    Prefixes3(c0, c1, c2, checks.checks);
  }

  method AddOptimizationChecks(checks: CheckList, t: Target, p: Page)
    modifies checks
    ensures Project(checks.checks) == Project(old(checks.checks)) + OptimizationVerdicts(t, p)
    ensures ValuesBounded(old(checks.checks)) ==> ValuesBounded(checks.checks)
    ensures old(checks.checks) <= checks.checks
  {
    ghost var before := Project(checks.checks);
    ghost var c0 := checks.checks;
    var external := ExternalAnchors(t, p.body.anchors);
    checks.AddCheck("Source Citations", PassIf(HasCitations(t, p), Warning), "Factual citations",
                    NatToString(|external|) + " external links", "Cite authoritative sources with links", High, Some("Trust & Freshness"));
    ghost var c1 := checks.checks;
    var llms := Found(p.llmsProbe);
    checks.AddCheck("LLMs.txt File", PassIf(llms, Info), "AI crawler guidance",
                    if llms then "Found" else "Not found", "Add llms.txt for AI crawler permissions", Low, Some("AI Optimization"));
    ghost var c2 := checks.checks;
    var words := WordCount(p);
    checks.AddCheck("AI-Friendly Length", AiLengthStatus(words), "Content length",
                    NatToString(words) + " words", "Aim for 500-3000 words for AI context windows", Medium, Some("AI Optimization"));
    Appended3(before, OptimizationVerdicts(t, p));
    Prefixes3(c0, c1, c2, checks.checks);
  }

  method AddTrustChecks(checks: CheckList, t: Target, p: Page)
    modifies checks
    ensures Project(checks.checks) == Project(old(checks.checks)) + TrustVerdicts(t, p)
    ensures ValuesBounded(old(checks.checks)) ==> ValuesBounded(checks.checks)
    ensures old(checks.checks) <= checks.checks
  {
    ghost var c0 := checks.checks;
    ghost var v0 := Project(checks.checks);
    AddFreshnessChecks(checks, p);
    ghost var v1 := Project(checks.checks);
    ghost var c1 := checks.checks;
    AddOptimizationChecks(checks, t, p);
    Extended(v0, v1, Project(checks.checks), FreshnessVerdicts(p), OptimizationVerdicts(t, p));
    Prefixes2(c0, c1, checks.checks);
  }

  /** `analyze_geo_aeo(url, soup, response, load_time)` */
  method Analyze(t: Target, p: Page) returns (r: CategoryResult)
    ensures Consistent(r) && |r.checks| == Count
    ensures Yields(Project(r.checks), t, p)
    ensures ValuesBounded(r.checks)
  {
    var checks := new CheckList();
    ghost var v0 := Project(checks.checks);
    AddParsingChecks(checks, p);
    ghost var v1 := Project(checks.checks);
    AddSemanticChecks(checks, p);
    ghost var v2 := Project(checks.checks);
    AddInterpretabilityChecks(checks, p);
    ghost var v3 := Project(checks.checks);
    AddSnippetChecks(checks, p);
    ghost var v4 := Project(checks.checks);
    AddTrustChecks(checks, t, p);
    Chained5(v0, v1, v2, v3, v4, Project(checks.checks), ParsingVerdicts(p), SemanticVerdicts(p),
             InterpretabilityVerdicts(p), SnippetVerdicts(p), TrustVerdicts(t, p));
    r := Summarize(checks.checks);
  }

  // ----- Properties -----

  /** A phrase list is counted at least once exactly when one of its (non-empty) phrases occurs. */
  lemma {:induction false} CountAllPositive(s: string, subs: seq<string>)
    requires forall k :: 0 <= k < |subs| ==> subs[k] != []
    ensures CountAll(s, subs) > 0 <==> MentionsAny(s, subs)
  {
    if subs != [] {
      OccurrencesPositive(s, subs[0]);
      CountAllPositive(s, subs[1..]);
      if MentionsAny(s, subs[1..]) {
        var k :| 0 <= k < |subs[1..]| && Contains(s, subs[1..][k]);
        assert Contains(s, subs[k + 1]);
      }
      if MentionsAny(s, subs) && !Contains(s, subs[0]) {
        var k :| 0 <= k < |subs| && Contains(s, subs[k]);
        assert subs[1..][k - 1] == subs[k];
      }
    }
  }

  /** A text without any example phrase is only informational on "Concrete Examples". */
  lemma NoExamplePhrases(p: Page)
    requires !MentionsAny(Lower(p.text), ExamplePhrases)
    ensures PassageVerdicts(p)[2].status == Info
  {
    CountAllPositive(Lower(p.text), ExamplePhrases);
  }

  /**
   * "Answer-First Writing" tests substrings, not words: `is` occurs inside
   * `this`, so any first paragraph containing "this" in any letter case passes.
   */
  lemma AnswerFirstMatchesInsideWords(p: Page)
    requires Contains(Lower(FirstParagraph(p)), "this")
    ensures AnswerVerdicts(p)[2].status == Pass
  {
    var first := Lower(FirstParagraph(p));
    ContainsAt(first, "this");
    var i :| OccursAt(first, "this", i);
    assert first[i + 2..i + 4] == first[i..i + 4][2..4];
    assert OccursAt(first, "is", i + 2);
    ContainsAt(first, "is");
    assert Contains(first, AnswerWords[0]);
  }

  /** A page without a paragraph has a buried lede. */
  lemma NoParagraphBuriedLede(p: Page)
    requires p.body.paragraphs == []
    ensures AnswerVerdicts(p)[2].status == Warning
  {
    assert Lower(FirstParagraph(p)) == "";
    forall k | 0 <= k < |AnswerWords|
      ensures !Contains("", AnswerWords[k])
    {
      NotContainsShort("", AnswerWords[k]);
    }
  }

  /** The three ratio checks are the source's exact real-number tests. */
  lemma StyleRatiosExact(p: Page)
    ensures StyleVerdicts(p)[0].status == Pass <==> Ratio(|PronounSentences(p)|, |p.patterns.sentences|) < 0.2
    ensures StyleVerdicts(p)[1].status == Pass <==> Ratio(|ComplexWords(p)|, WordCount(p)) < 0.05
    ensures StyleVerdicts(p)[2].status == Pass <==> Ratio(ConversationalCount(p), WordCount(p)) > 0.005
  {
    FewPronounStartsExact(|PronounSentences(p)|, |p.patterns.sentences|);
    PlainLanguageExact(|ComplexWords(p)|, WordCount(p));
    ConversationalExact(ConversationalCount(p), WordCount(p));
  }

  /** "Section Granularity" is the source's `(h2 + h3) / (words / 300) >= 0.8`, with pages of 300 words or fewer passing. */
  lemma SectionGranularityExact(p: Page)
    ensures PassageVerdicts(p)[0].status == Pass <==> SectionRatio(SectionCount(p), WordCount(p)) >= 0.8
    ensures WordCount(p) <= 300 ==> PassageVerdicts(p)[0].status == Pass
  {
    SectionsExact(SectionCount(p), WordCount(p));
  }

  /** A page without `<h1>`…`<h4>` headings passes "Descriptive Headings" (0 of 0 is at least half). */
  lemma NoHeadingsDescriptive(p: Page)
    requires UpperHeadings(p) == []
    ensures HeadingVerdicts(p)[1].status == Pass
  {
  }
}
