# SEO audit check engine, modelled in Dafny

This project models the check-evaluation core of a Flask SEO audit service
(`app.py`). The core has these parts:

- **`add_check`**: appends one check record (name, status, description, value,
  recommendation, impact, category) to an analyzer's list. It cuts the value
  to 200 characters and labels a record without a category `General`.
- **Nine category analyzers**: Technical, On-Page, Content, Mobile, Performance,
  Security, Social, Local and GEO/AEO. Each turns facts about a fetched page
  into a fixed sequence of records with status `pass`, `fail`, `warning` or
  `info`. It then scores them as `round(passed / total * 100, 1)`.
- **`POST /api/analyze`**: normalizes the URL and fetches the page. It runs
  the requested analyzers in request order. It stores each result under its
  key, adds up the total and passed counts, and reports the mean of the stored
  scores as the overall score.
- **The issue summary of `POST /api/ai-recommendations`**: for each stored
  category, in dictionary order, it lists the first five failing or warning
  checks under a header with the category's score.

## Layout

| file | module | contents |
|---|---|---|
| `options.dfy` | `Options` | `Option` |
| `lists.dfy` | `Lists` | `Filter` (a list comprehension with a condition) and append lemmas |
| `text.dfy` | `Text` | the Python string operations the rules use: `lower`, `in`, `count`, `split`, `strip`, `str(n)`, `round` on exact quotients, fixed-point formatting |
| `checks.dfy` | `Checks` | the check record, class `CheckList` with `AddCheck` (`add_check`), the projection of records onto `Verdict`s (name and outcome), pass counting, `Summarize` (an analyzer's return value) |
| `page.dfy` | `Page` | the audited URL and its `urlparse` parts; the page as the analyzers see it: response headers, body size, load time, probe results, and the facts read off the document |
| `rules.dfy`, `images.dfy` | `Rules`, `ImageRules` | rules several analyzers share: tiers, ratio thresholds decided exactly on integers, heading order, URL depth and parameters, image rules |
| `technical.dfy` … `geo.dfy` | one module per analyzer | `XVerdicts` functions: the decision table of each block of checks, as (name, outcome) pairs. `AddXChecks` methods: append the full records through `CheckList.AddCheck`, in the source's order. `Analyze`: the analyzer itself. Then lemmas about the rules |
| `audit.dfy` | `Audit` | the analyzer table, `Aggregate` (the loop over the requested keys), `AnalyzeUrl` (the endpoint), and lemmas about totals, stored keys and the overall score |
| `issues.dfy` | `Issues` | `CollectIssues` (the two nested loops building the issue summary), `RecommendationIssues` (the endpoint up to the language-model call), and lemmas about which records are listed |

## How the analyzers are specified

Each analyzer module defines `Verdicts(p)`, which gives the name and outcome
of every record in emission order. Some analyzers also take the target URL:
`Verdicts(t, p)`.

`Analyze` builds a `CheckList` and calls the `AddXChecks` methods. Each of
those methods calls `AddCheck` once per `add_check` in the source. `Analyze`
is proved to:

- keep, in every `AddXChecks` method, the records held before the call in front;
- return `Summarize` of its records;
- return exactly `Count` records;
- keep every value within 200 characters;
- return records whose projection is `Verdicts` of the page.

`Audit.Aggregate` is proved against a ghost table holding the nine analyzers'
verdicts on the page. The stored result of each key carries its row of that
table. The totals add up the check and pass counts of every run. The overall
score is the rounded mean of the stored scores. `Audit.AnalyzeUrl` proves
this for every table of the fetched page; `TabulatesUnique` shows there is
exactly one.

Scores are kept in tenths of a percent (`425` stands for 42.5). Ratio
thresholds are decided on integers by cross-multiplication. For each one, a
lemma in `Rules` shows that it agrees with the source's formula on exact
rational numbers, including the zero-denominator guard.

## Where the documentation and the code disagree

- The docstring of `analyze_url` says 170 checks. The `/api/health` endpoint
  says 180, as do the section banners (35, 25, 20, 15, 18, 12, 10, 15 and
  30 checks). The code emits 30 + 24 + 18 + 15 + 17 + 12 + 10 + 15 + 30 = 171 records
  (`Audit.AllChecksTotal`). The model follows the code.
- Some rules behave, as written, differently from what their names suggest.
  The model keeps these behaviours and states them as lemmas:
  - any first paragraph containing `this` passes "Answer-First Writing"
    (`Geo.AnswerFirstMatchesInsideWords`);
  - a page with no buttons or links warns on "Touch Targets"
    (`Mobile.NoTargetsWarn`);
  - "GeoCoordinates" passes whenever the lower-cased HTML contains `geo`
    (`Local.GeoMeansLowercaseGeo`);
  - an `Organization` block satisfies "LocalBusiness Schema"
    (`Local.OrganizationIsLocal`);
  - a missing canonical `href` counts as self-referencing
    (`Technical.CanonicalWithoutHref`);
  - a URL such as `httpbin.org` counts as already having a scheme and is
    left unchanged (`Audit.Normalize`).

## Model

| member | source | states |
|---|---|---|
| Checks.MakeCheck | app.py:41-45 | the record keeps name, status, description, recommendation and impact; its value is the first 200 characters of the given one (all of it when shorter); its category is the given label, or `General` when none or an empty one is given |
| Checks.CheckList.AddCheck | app.py:41-45 | appends exactly that record to the list; the names and outcomes gain `Verdict(name, status)`; values stay within 200 characters |
| Checks.Project | app.py:724 | one verdict per record, carrying the record's name and status |
| Checks.PassCountBounds | app.py:724 | no more checks pass than there are; all pass if and only if every status is `pass`; none pass if and only if no status is `pass` |
| Checks.PassCountAppend | app.py:724 | the passes of two lists joined add up |
| Checks.PercentTenthsBounds | app.py:725 | the rounded percentage is at most 100.0, exactly 100.0 when all pass and 0.0 when none pass |
| Checks.Summarize | app.py:724-725 | the result holds the records, `total` is their number and `passed` the number with status `pass` |
| Checks.SummaryScore | app.py:724-725 | `passed <= total`; the score is within half a tenth of `passed / total * 100`; it is at most 100.0, is 100.0 when every check passes and, with fewer than 2000 checks, only then (1999 passes of 2000 round up to 100.0), and 0.0 when none does |
| Technical.CrawlabilityVerdicts | app.py:50-89 | 7 verdicts, one per check in emission order ("Robots.txt", "Meta Robots", "XML Sitemap", "Canonical URL", "Self-Referencing Canonical", "Hreflang Tags", "X-Robots-Tag"), each with the outcome the cited lines decide |
| Technical.AddCrawlabilityChecks | app.py:50-89 | appends 7 records: the names and outcomes of the list become the old ones followed by `CrawlabilityVerdicts`, and if every earlier value kept within 200 characters every value still does; the records held before the call stay in front, unchanged |
| Technical.RobotsVerdicts | app.py:50-68 | 3 verdicts, one per check in emission order ("Robots.txt", "Meta Robots", "XML Sitemap"), each with the outcome the cited lines decide |
| Technical.AddRobotsChecks | app.py:50-68 | appends 3 records: the names and outcomes of the list become the old ones followed by `RobotsVerdicts`, and if every earlier value kept within 200 characters every value still does; the records held before the call stay in front, unchanged |
| Technical.CanonicalVerdicts | app.py:70-80 | 2 verdicts, one per check in emission order ("Canonical URL", "Self-Referencing Canonical"), each with the outcome the cited lines decide |
| Technical.AddCanonicalChecks | app.py:70-80 | appends 2 records: the names and outcomes of the list become the old ones followed by `CanonicalVerdicts`, and if every earlier value kept within 200 characters every value still does; the records held before the call stay in front, unchanged |
| Technical.IndexingVerdicts | app.py:82-89 | 2 verdicts, one per check in emission order ("Hreflang Tags", "X-Robots-Tag"), each with the outcome the cited lines decide |
| Technical.AddIndexingChecks | app.py:82-89 | appends 2 records: the names and outcomes of the list become the old ones followed by `IndexingVerdicts`, and if every earlier value kept within 200 characters every value still does; the records held before the call stay in front, unchanged |
| Technical.SecurityVerdicts | app.py:91-118 | 7 verdicts, one per check in emission order ("HTTPS", "HSTS Header", "X-Content-Type-Options", "X-Frame-Options", "Content-Security-Policy", "No Mixed Content", "Secure Password Fields"), each with the outcome the cited lines decide |
| Technical.AddSecurityChecks | app.py:91-118 | appends 7 records: the names and outcomes of the list become the old ones followed by `SecurityVerdicts`, and if every earlier value kept within 200 characters every value still does; the records held before the call stay in front, unchanged |
| Technical.TransportVerdicts | app.py:91-101 | 3 verdicts, one per check in emission order ("HTTPS", "HSTS Header", "X-Content-Type-Options"), each with the outcome the cited lines decide |
| Technical.AddTransportChecks | app.py:91-101 | appends 3 records: the names and outcomes of the list become the old ones followed by `TransportVerdicts`, and if every earlier value kept within 200 characters every value still does; the records held before the call stay in front, unchanged |
| Technical.FramingVerdicts | app.py:103-109 | 2 verdicts, one per check in emission order ("X-Frame-Options", "Content-Security-Policy"), each with the outcome the cited lines decide |
| Technical.AddFramingChecks | app.py:103-109 | appends 2 records: the names and outcomes of the list become the old ones followed by `FramingVerdicts`, and if every earlier value kept within 200 characters every value still does; the records held before the call stay in front, unchanged |
| Technical.ResourceVerdicts | app.py:111-118 | 2 verdicts, one per check in emission order ("No Mixed Content", "Secure Password Fields"), each with the outcome the cited lines decide |
| Technical.AddResourceChecks | app.py:111-118 | appends 2 records: the names and outcomes of the list become the old ones followed by `ResourceVerdicts`, and if every earlier value kept within 200 characters every value still does; the records held before the call stay in front, unchanged |
| Technical.UrlVerdicts | app.py:120-143 | 6 verdicts, one per check in emission order ("URL Length", "URL Lowercase", "URL Hyphens", "URL Depth", "URL Parameters", "Clean URL"), each with the outcome the cited lines decide |
| Technical.AddUrlChecks | app.py:120-143 | appends 6 records: the names and outcomes of the list become the old ones followed by `UrlVerdicts`, and if every earlier value kept within 200 characters every value still does; the records held before the call stay in front, unchanged |
| Technical.UrlFormVerdicts | app.py:120-128 | 3 verdicts, one per check in emission order ("URL Length", "URL Lowercase", "URL Hyphens"), each with the outcome the cited lines decide |
| Technical.AddUrlFormChecks | app.py:120-128 | appends 3 records: the names and outcomes of the list become the old ones followed by `UrlFormVerdicts`, and if every earlier value kept within 200 characters every value still does; the records held before the call stay in front, unchanged |
| Technical.UrlPathVerdicts | app.py:130-143 | 3 verdicts, one per check in emission order ("URL Depth", "URL Parameters", "Clean URL"), each with the outcome the cited lines decide |
| Technical.AddUrlPathChecks | app.py:130-143 | appends 3 records: the names and outcomes of the list become the old ones followed by `UrlPathVerdicts`, and if every earlier value kept within 200 characters every value still does; the records held before the call stay in front, unchanged |
| Technical.LinkingVerdicts | app.py:145-169 | 5 verdicts, one per check in emission order ("Internal Links", "External Links", "Valid Link Hrefs", "Internal Nofollow", "Descriptive Anchors"), each with the outcome the cited lines decide |
| Technical.AddLinkingChecks | app.py:145-169 | appends 5 records: the names and outcomes of the list become the old ones followed by `LinkingVerdicts`, and if every earlier value kept within 200 characters every value still does; the records held before the call stay in front, unchanged |
| Technical.LinkCountVerdicts | app.py:145-158 | 3 verdicts, one per check in emission order ("Internal Links", "External Links", "Valid Link Hrefs"), each with the outcome the cited lines decide |
| Technical.AddLinkCountChecks | app.py:145-158 | appends 3 records: the names and outcomes of the list become the old ones followed by `LinkCountVerdicts`, and if every earlier value kept within 200 characters every value still does; the records held before the call stay in front, unchanged |
| Technical.LinkQualityVerdicts | app.py:160-169 | 2 verdicts, one per check in emission order ("Internal Nofollow", "Descriptive Anchors"), each with the outcome the cited lines decide |
| Technical.AddLinkQualityChecks | app.py:160-169 | appends 2 records: the names and outcomes of the list become the old ones followed by `LinkQualityVerdicts`, and if every earlier value kept within 200 characters every value still does; the records held before the call stay in front, unchanged |
| Technical.StructureVerdicts | app.py:171-190 | 5 verdicts, one per check in emission order ("Schema.org JSON-LD", "Microdata", "Viewport Meta", "DOCTYPE Declaration", "Character Encoding"), each with the outcome the cited lines decide |
| Technical.AddStructureChecks | app.py:171-190 | appends 5 records: the names and outcomes of the list become the old ones followed by `StructureVerdicts`, and if every earlier value kept within 200 characters every value still does; the records held before the call stay in front, unchanged |
| Technical.SchemaVerdicts | app.py:171-178 | 2 verdicts, one per check in emission order ("Schema.org JSON-LD", "Microdata"), each with the outcome the cited lines decide |
| Technical.AddSchemaChecks | app.py:171-178 | appends 2 records: the names and outcomes of the list become the old ones followed by `SchemaVerdicts`, and if every earlier value kept within 200 characters every value still does; the records held before the call stay in front, unchanged |
| Technical.DocumentVerdicts | app.py:180-190 | 3 verdicts, one per check in emission order ("Viewport Meta", "DOCTYPE Declaration", "Character Encoding"), each with the outcome the cited lines decide |
| Technical.AddDocumentChecks | app.py:180-190 | appends 3 records: the names and outcomes of the list become the old ones followed by `DocumentVerdicts`, and if every earlier value kept within 200 characters every value still does; the records held before the call stay in front, unchanged |
| Technical.Verdicts | app.py:49-193 | 30 verdicts (`Count`), the groups above in emission order |
| Technical.Analyze | app.py:49-193 | `analyze_technical_seo`: the records' names and outcomes are `Verdicts` of the page, there are 30 of them, every value keeps at most 200 characters, and `total`, `passed` and `score` are those `Summarize` gives the records |
| Technical.CanonicalWithoutHref | app.py:75-80 | with no canonical link, or one whose `href` is empty, the canonical counts as self-referencing and "Self-Referencing Canonical" passes |
| Technical.CanonicalWarns | app.py:75-80 | "Self-Referencing Canonical" warns if and only if a canonical link exists whose `href` neither contains the URL nor is contained in it |
| Technical.NoindexFails | app.py:60-64 | a `robots` meta tag whose lower-cased content contains `noindex` fails "Meta Robots" |
| Technical.DeepPathWarns | app.py:129-132 | a path of four non-empty segments has depth 4 and warns on "URL Depth" |
| OnPage.TitleMetaVerdicts | app.py:198-238 | 8 verdicts, one per check in emission order ("Title Tag Present", "Title Length", "Title Uniqueness", "Meta Description", "Description Length", "Meta Keywords", "Language Attribute", "Favicon"), each with the outcome the cited lines decide |
| OnPage.AddTitleMetaChecks | app.py:198-238 | appends 8 records: the names and outcomes of the list become the old ones followed by `TitleMetaVerdicts`, and if every earlier value kept within 200 characters every value still does; the records held before the call stay in front, unchanged |
| OnPage.TitleVerdicts | app.py:198-215 | 3 verdicts, one per check in emission order ("Title Tag Present", "Title Length", "Title Uniqueness"), each with the outcome the cited lines decide |
| OnPage.AddTitleChecks | app.py:198-215 | appends 3 records: the names and outcomes of the list become the old ones followed by `TitleVerdicts`, and if every earlier value kept within 200 characters every value still does; the records held before the call stay in front, unchanged |
| OnPage.DescriptionVerdicts | app.py:217-229 | 3 verdicts, one per check in emission order ("Meta Description", "Description Length", "Meta Keywords"), each with the outcome the cited lines decide |
| OnPage.AddDescriptionChecks | app.py:217-229 | appends 3 records: the names and outcomes of the list become the old ones followed by `DescriptionVerdicts`, and if every earlier value kept within 200 characters every value still does; the records held before the call stay in front, unchanged |
| OnPage.HeadExtrasVerdicts | app.py:231-238 | 2 verdicts, one per check in emission order ("Language Attribute", "Favicon"), each with the outcome the cited lines decide |
| OnPage.AddHeadExtrasChecks | app.py:231-238 | appends 2 records: the names and outcomes of the list become the old ones followed by `HeadExtrasVerdicts`, and if every earlier value kept within 200 characters every value still does; the records held before the call stay in front, unchanged |
| OnPage.HeadingVerdicts | app.py:240-266 | 6 verdicts, one per check in emission order ("H1 Tag", "H1 Content", "H2 Tags", "H3 Tags", "No Empty Headings", "Heading Hierarchy"), each with the outcome the cited lines decide |
| OnPage.AddHeadingChecks | app.py:240-266 | appends 6 records: the names and outcomes of the list become the old ones followed by `HeadingVerdicts`, and if every earlier value kept within 200 characters every value still does; the records held before the call stay in front, unchanged |
| OnPage.HeadingCountVerdicts | app.py:240-251 | 3 verdicts, one per check in emission order ("H1 Tag", "H1 Content", "H2 Tags"), each with the outcome the cited lines decide |
| OnPage.AddHeadingCountChecks | app.py:240-251 | appends 3 records: the names and outcomes of the list become the old ones followed by `HeadingCountVerdicts`, and if every earlier value kept within 200 characters every value still does; the records held before the call stay in front, unchanged |
| OnPage.HeadingShapeVerdicts | app.py:253-266 | 3 verdicts, one per check in emission order ("H3 Tags", "No Empty Headings", "Heading Hierarchy"), each with the outcome the cited lines decide |
| OnPage.AddHeadingShapeChecks | app.py:253-266 | appends 3 records: the names and outcomes of the list become the old ones followed by `HeadingShapeVerdicts`, and if every earlier value kept within 200 characters every value still does; the records held before the call stay in front, unchanged |
| OnPage.ImageVerdicts | app.py:268-294 | 6 verdicts, one per check in emission order ("Image Alt Text", "Image Dimensions", "Lazy Loading", "Responsive Images", "Modern Image Formats", "Meaningful Alt Text"), each with the outcome the cited lines decide |
| OnPage.AddImageChecks | app.py:268-294 | appends 6 records: the names and outcomes of the list become the old ones followed by `ImageVerdicts`, and if every earlier value kept within 200 characters every value still does; the records held before the call stay in front, unchanged |
| OnPage.ImageAttrVerdicts | app.py:268-280 | 3 verdicts, one per check in emission order ("Image Alt Text", "Image Dimensions", "Lazy Loading"), each with the outcome the cited lines decide |
| OnPage.AddImageAttrChecks | app.py:268-280 | appends 3 records: the names and outcomes of the list become the old ones followed by `ImageAttrVerdicts`, and if every earlier value kept within 200 characters every value still does; the records held before the call stay in front, unchanged |
| OnPage.ImageFormatVerdicts | app.py:282-294 | 3 verdicts, one per check in emission order ("Responsive Images", "Modern Image Formats", "Meaningful Alt Text"), each with the outcome the cited lines decide |
| OnPage.AddImageFormatChecks | app.py:282-294 | appends 3 records: the names and outcomes of the list become the old ones followed by `ImageFormatVerdicts`, and if every earlier value kept within 200 characters every value still does; the records held before the call stay in front, unchanged |
| OnPage.StructureVerdicts | app.py:296-311 | 4 verdicts, one per check in emission order ("Paragraph Count", "List Usage", "Word Count", "Content Depth"), each with the outcome the cited lines decide |
| OnPage.AddStructureChecks | app.py:296-311 | appends 4 records: the names and outcomes of the list become the old ones followed by `StructureVerdicts`, and if every earlier value kept within 200 characters every value still does; the records held before the call stay in front, unchanged |
| OnPage.BlockVerdicts | app.py:296-303 | 2 verdicts, one per check in emission order ("Paragraph Count", "List Usage"), each with the outcome the cited lines decide |
| OnPage.AddBlockChecks | app.py:296-303 | appends 2 records: the names and outcomes of the list become the old ones followed by `BlockVerdicts`, and if every earlier value kept within 200 characters every value still does; the records held before the call stay in front, unchanged |
| OnPage.LengthVerdicts | app.py:305-311 | 2 verdicts, one per check in emission order ("Word Count", "Content Depth"), each with the outcome the cited lines decide |
| OnPage.AddLengthChecks | app.py:305-311 | appends 2 records: the names and outcomes of the list become the old ones followed by `LengthVerdicts`, and if every earlier value kept within 200 characters every value still does; the records held before the call stay in front, unchanged |
| OnPage.Verdicts | app.py:197-314 | 24 verdicts (`Count`), the groups above in emission order |
| OnPage.Analyze | app.py:197-314 | `analyze_onpage_seo`: the records' names and outcomes are `Verdicts` of the page, there are 24 of them, every value keeps at most 200 characters, and `total`, `passed` and `score` are those `Summarize` gives the records |
| OnPage.Preview | app.py:204-205 | a text longer than the limit is cut to the limit with `...` added, an empty one reads `Missing`, anything else is kept |
| OnPage.DistinctTitlePasses | app.py:211-215 | a title whose lower-cased words are pairwise distinct passes "Title Uniqueness" |
| OnPage.HierarchyMeaning | app.py:262-266 | "Heading Hierarchy" passes if and only if each heading level is at most one more than the level before it |
| OnPage.NoImagesPassAll | app.py:268-294 | a page without `<img>` elements passes all six image checks |
| OnPage.DepthImpliesWordCount | app.py:305-311 | passing "Content Depth" implies passing "Word Count", and failing it implies a warning on "Word Count" |
| Content.QualityVerdicts | app.py:319-360 | 7 verdicts, one per check in emission order ("Content Length", "Paragraph Structure", "Sentence Length", "Vocabulary Diversity", "Engaging Questions", "Data & Statistics", "Text Emphasis"), each with the outcome the cited lines decide |
| Content.AddQualityChecks | app.py:319-360 | appends 7 records: the names and outcomes of the list become the old ones followed by `QualityVerdicts`, and if every earlier value kept within 200 characters every value still does; the records held before the call stay in front, unchanged |
| Content.ProseVerdicts | app.py:319-339 | 3 verdicts, one per check in emission order ("Content Length", "Paragraph Structure", "Sentence Length"), each with the outcome the cited lines decide |
| Content.AddProseChecks | app.py:319-339 | appends 3 records: the names and outcomes of the list become the old ones followed by `ProseVerdicts`, and if every earlier value kept within 200 characters every value still does; the records held before the call stay in front, unchanged |
| Content.VocabularyVerdicts | app.py:341-350 | 2 verdicts, one per check in emission order ("Vocabulary Diversity", "Engaging Questions"), each with the outcome the cited lines decide |
| Content.AddVocabularyChecks | app.py:341-350 | appends 2 records: the names and outcomes of the list become the old ones followed by `VocabularyVerdicts`, and if every earlier value kept within 200 characters every value still does; the records held before the call stay in front, unchanged |
| Content.EnrichmentVerdicts | app.py:352-360 | 2 verdicts, one per check in emission order ("Data & Statistics", "Text Emphasis"), each with the outcome the cited lines decide |
| Content.AddEnrichmentChecks | app.py:352-360 | appends 2 records: the names and outcomes of the list become the old ones followed by `EnrichmentVerdicts`, and if every earlier value kept within 200 characters every value still does; the records held before the call stay in front, unchanged |
| Content.LinkingVerdicts | app.py:362-384 | 5 verdicts, one per check in emission order ("Internal Links", "External Links", "Link Density", "External Nofollow", "Link Qualification"), each with the outcome the cited lines decide |
| Content.AddLinkingChecks | app.py:362-384 | appends 5 records: the names and outcomes of the list become the old ones followed by `LinkingVerdicts`, and if every earlier value kept within 200 characters every value still does; the records held before the call stay in front, unchanged |
| Content.LinkCountVerdicts | app.py:362-374 | 3 verdicts, one per check in emission order ("Internal Links", "External Links", "Link Density"), each with the outcome the cited lines decide |
| Content.AddLinkCountChecks | app.py:362-374 | appends 3 records: the names and outcomes of the list become the old ones followed by `LinkCountVerdicts`, and if every earlier value kept within 200 characters every value still does; the records held before the call stay in front, unchanged |
| Content.LinkRelVerdicts | app.py:376-384 | 2 verdicts, one per check in emission order ("External Nofollow", "Link Qualification"), each with the outcome the cited lines decide |
| Content.AddLinkRelChecks | app.py:376-384 | appends 2 records: the names and outcomes of the list become the old ones followed by `LinkRelVerdicts`, and if every earlier value kept within 200 characters every value still does; the records held before the call stay in front, unchanged |
| Content.TrustVerdicts | app.py:386-413 | 6 verdicts, one per check in emission order ("Author Attribution", "Content Date", "Trust Pages Linked", "Source Citations", "Expertise Signals", "Contact Information"), each with the outcome the cited lines decide |
| Content.AddTrustChecks | app.py:386-413 | appends 6 records: the names and outcomes of the list become the old ones followed by `TrustVerdicts`, and if every earlier value kept within 200 characters every value still does; the records held before the call stay in front, unchanged |
| Content.AuthorshipVerdicts | app.py:386-398 | 3 verdicts, one per check in emission order ("Author Attribution", "Content Date", "Trust Pages Linked"), each with the outcome the cited lines decide |
| Content.AddAuthorshipChecks | app.py:386-398 | appends 3 records: the names and outcomes of the list become the old ones followed by `AuthorshipVerdicts`, and if every earlier value kept within 200 characters every value still does; the records held before the call stay in front, unchanged |
| Content.ExpertiseVerdicts | app.py:400-413 | 3 verdicts, one per check in emission order ("Source Citations", "Expertise Signals", "Contact Information"), each with the outcome the cited lines decide |
| Content.AddExpertiseChecks | app.py:400-413 | appends 3 records: the names and outcomes of the list become the old ones followed by `ExpertiseVerdicts`, and if every earlier value kept within 200 characters every value still does; the records held before the call stay in front, unchanged |
| Content.Verdicts | app.py:318-416 | 18 verdicts (`Count`), the groups above in emission order |
| Content.Analyze | app.py:318-416 | `analyze_content_seo`: the records' names and outcomes are `Verdicts` of the page, there are 18 of them, every value keeps at most 200 characters, and `total`, `passed` and `score` are those `Summarize` gives the records |
| Content.VocabularyWords | app.py:341-343 | the lower-cased long words are never more than the words of the page |
| Content.SentenceLengthMeaning | app.py:334-339 | "Sentence Length" passes if and only if words per sentence of more than three words, as an exact quotient (0 without such sentences), lie in [10, 20] |
| Content.VocabularyMeaning | app.py:341-345 | "Vocabulary Diversity" passes if and only if distinct long words per word, as an exact quotient (0 for an empty page), exceed 0.3 |
| Content.LinkDensityMeaning | app.py:372-374 | "Link Density" passes if and only if `links / (words / 100)`, computed exactly, lies in [1, 10]; a page without words warns |
| Content.NoExternalQualified | app.py:366-384 | when no link is external, "Link Qualification" passes |
| Mobile.ResponsivenessVerdicts | app.py:421-447 | 5 verdicts, one per check in emission order ("Viewport Meta Tag", "Viewport Width", "Initial Scale", "Zoom Enabled", "Media Queries"), each with the outcome the cited lines decide |
| Mobile.AddResponsivenessChecks | app.py:421-447 | appends 5 records: the names and outcomes of the list become the old ones followed by `ResponsivenessVerdicts`, and if every earlier value kept within 200 characters every value still does; the records held before the call stay in front, unchanged |
| Mobile.ViewportVerdicts | app.py:421-437 | 3 verdicts, one per check in emission order ("Viewport Meta Tag", "Viewport Width", "Initial Scale"), each with the outcome the cited lines decide |
| Mobile.AddViewportChecks | app.py:421-437 | appends 3 records: the names and outcomes of the list become the old ones followed by `ViewportVerdicts`, and if every earlier value kept within 200 characters every value still does; the records held before the call stay in front, unchanged |
| Mobile.ScalingVerdicts | app.py:439-447 | 2 verdicts, one per check in emission order ("Zoom Enabled", "Media Queries"), each with the outcome the cited lines decide |
| Mobile.AddScalingChecks | app.py:439-447 | appends 2 records: the names and outcomes of the list become the old ones followed by `ScalingVerdicts`, and if every earlier value kept within 200 characters every value still does; the records held before the call stay in front, unchanged |
| Mobile.UxVerdicts | app.py:449-475 | 5 verdicts, one per check in emission order ("Touch Targets", "No Flash Content", "No Frames", "No Fixed Width", "Readable Font Size"), each with the outcome the cited lines decide |
| Mobile.AddUxChecks | app.py:449-475 | appends 5 records: the names and outcomes of the list become the old ones followed by `UxVerdicts`, and if every earlier value kept within 200 characters every value still does; the records held before the call stay in front, unchanged |
| Mobile.TouchVerdicts | app.py:449-465 | 3 verdicts, one per check in emission order ("Touch Targets", "No Flash Content", "No Frames"), each with the outcome the cited lines decide |
| Mobile.AddTouchChecks | app.py:449-465 | appends 3 records: the names and outcomes of the list become the old ones followed by `TouchVerdicts`, and if every earlier value kept within 200 characters every value still does; the records held before the call stay in front, unchanged |
| Mobile.LayoutVerdicts | app.py:467-475 | 2 verdicts, one per check in emission order ("No Fixed Width", "Readable Font Size"), each with the outcome the cited lines decide |
| Mobile.AddLayoutChecks | app.py:467-475 | appends 2 records: the names and outcomes of the list become the old ones followed by `LayoutVerdicts`, and if every earlier value kept within 200 characters every value still does; the records held before the call stay in front, unchanged |
| Mobile.PerformanceVerdicts | app.py:477-501 | 5 verdicts, one per check in emission order ("Image Lazy Loading", "Page Weight", "AMP Version", "App Deep Links", "Click-to-Call"), each with the outcome the cited lines decide |
| Mobile.AddPerformanceChecks | app.py:477-501 | appends 5 records: the names and outcomes of the list become the old ones followed by `PerformanceVerdicts`, and if every earlier value kept within 200 characters every value still does; the records held before the call stay in front, unchanged |
| Mobile.WeightVerdicts | app.py:477-491 | 3 verdicts, one per check in emission order ("Image Lazy Loading", "Page Weight", "AMP Version"), each with the outcome the cited lines decide |
| Mobile.AddWeightChecks | app.py:477-491 | appends 3 records: the names and outcomes of the list become the old ones followed by `WeightVerdicts`, and if every earlier value kept within 200 characters every value still does; the records held before the call stay in front, unchanged |
| Mobile.IntegrationVerdicts | app.py:493-501 | 2 verdicts, one per check in emission order ("App Deep Links", "Click-to-Call"), each with the outcome the cited lines decide |
| Mobile.AddIntegrationChecks | app.py:493-501 | appends 2 records: the names and outcomes of the list become the old ones followed by `IntegrationVerdicts`, and if every earlier value kept within 200 characters every value still does; the records held before the call stay in front, unchanged |
| Mobile.Verdicts | app.py:420-504 | 15 verdicts (`Count`), the groups above in emission order |
| Mobile.Analyze | app.py:420-504 | `analyze_mobile_seo`: the records' names and outcomes are `Verdicts` of the page, there are 15 of them, every value keeps at most 200 characters, and `total`, `passed` and `score` are those `Summarize` gives the records |
| Mobile.MissingViewport | app.py:424-447 | without a viewport tag the first three viewport checks are fail, fail and warning, and "Zoom Enabled" passes |
| Mobile.TouchTargetsMeaning | app.py:450-454 | "Touch Targets" passes if and only if small targets are fewer than a tenth of buttons and links, computed exactly |
| Mobile.NoTargetsWarn | app.py:450-454 | a page with no buttons or links warns on "Touch Targets" |
| Mobile.PageWeightMeaning | app.py:483-486 | "Page Weight" passes if and only if the response is under 100 KiB, computed exactly |
| Performance.VitalsVerdicts | app.py:509-537 | 5 verdicts, one per check in emission order ("Page Load Time", "HTML Size", "CLS Prevention", "LCP Optimization", "Non-blocking JS"), each with the outcome the cited lines decide |
| Performance.AddVitalsChecks | app.py:509-537 | appends 5 records: the names and outcomes of the list become the old ones followed by `VitalsVerdicts`, and if every earlier value kept within 200 characters every value still does; the records held before the call stay in front, unchanged |
| Performance.LoadVerdicts | app.py:509-525 | 3 verdicts, one per check in emission order ("Page Load Time", "HTML Size", "CLS Prevention"), each with the outcome the cited lines decide |
| Performance.AddLoadChecks | app.py:509-525 | appends 3 records: the names and outcomes of the list become the old ones followed by `LoadVerdicts`, and if every earlier value kept within 200 characters every value still does; the records held before the call stay in front, unchanged |
| Performance.InteractionVerdicts | app.py:527-537 | 2 verdicts, one per check in emission order ("LCP Optimization", "Non-blocking JS"), each with the outcome the cited lines decide |
| Performance.AddInteractionChecks | app.py:527-537 | appends 2 records: the names and outcomes of the list become the old ones followed by `InteractionVerdicts`, and if every earlier value kept within 200 characters every value still does; the records held before the call stay in front, unchanged |
| Performance.CachingVerdicts | app.py:539-554 | 4 verdicts, one per check in emission order ("Compression", "Cache Headers", "ETag Header", "Expires Header"), each with the outcome the cited lines decide |
| Performance.AddCachingChecks | app.py:539-554 | appends 4 records: the names and outcomes of the list become the old ones followed by `CachingVerdicts`, and if every earlier value kept within 200 characters every value still does; the records held before the call stay in front, unchanged |
| Performance.CompressionVerdicts | app.py:539-546 | 2 verdicts, one per check in emission order ("Compression", "Cache Headers"), each with the outcome the cited lines decide |
| Performance.AddCompressionChecks | app.py:539-546 | appends 2 records: the names and outcomes of the list become the old ones followed by `CompressionVerdicts`, and if every earlier value kept within 200 characters every value still does; the records held before the call stay in front, unchanged |
| Performance.ValidatorVerdicts | app.py:548-554 | 2 verdicts, one per check in emission order ("ETag Header", "Expires Header"), each with the outcome the cited lines decide |
| Performance.AddValidatorChecks | app.py:548-554 | appends 2 records: the names and outcomes of the list become the old ones followed by `ValidatorVerdicts`, and if every earlier value kept within 200 characters every value still does; the records held before the call stay in front, unchanged |
| Performance.ResourceVerdicts | app.py:556-575 | 5 verdicts, one per check in emission order ("CSS Files Count", "JS Files Count", "Inline Styles", "Preconnect Hints", "DNS Prefetch"), each with the outcome the cited lines decide |
| Performance.AddResourceChecks | app.py:556-575 | appends 5 records: the names and outcomes of the list become the old ones followed by `ResourceVerdicts`, and if every earlier value kept within 200 characters every value still does; the records held before the call stay in front, unchanged |
| Performance.FileCountVerdicts | app.py:556-566 | 3 verdicts, one per check in emission order ("CSS Files Count", "JS Files Count", "Inline Styles"), each with the outcome the cited lines decide |
| Performance.AddFileCountChecks | app.py:556-566 | appends 3 records: the names and outcomes of the list become the old ones followed by `FileCountVerdicts`, and if every earlier value kept within 200 characters every value still does; the records held before the call stay in front, unchanged |
| Performance.HintVerdicts | app.py:568-575 | 2 verdicts, one per check in emission order ("Preconnect Hints", "DNS Prefetch"), each with the outcome the cited lines decide |
| Performance.AddHintChecks | app.py:568-575 | appends 2 records: the names and outcomes of the list become the old ones followed by `HintVerdicts`, and if every earlier value kept within 200 characters every value still does; the records held before the call stay in front, unchanged |
| Performance.ImageVerdicts | app.py:577-589 | 3 verdicts, one per check in emission order ("Lazy Loading", "Responsive Images", "WebP Images"), each with the outcome the cited lines decide |
| Performance.AddImageChecks | app.py:577-589 | appends 3 records: the names and outcomes of the list become the old ones followed by `ImageVerdicts`, and if every earlier value kept within 200 characters every value still does; the records held before the call stay in front, unchanged |
| Performance.Verdicts | app.py:508-592 | 17 verdicts (`Count`), the groups above in emission order |
| Performance.Analyze | app.py:508-592 | `analyze_performance_seo`: the records' names and outcomes are `Verdicts` of the page, there are 17 of them, every value keeps at most 200 characters, and `total`, `passed` and `score` are those `Summarize` gives the records |
| Performance.LoadTimeMeaning | app.py:513-514 | "Page Load Time" passes if and only if the fetch took under 2 s and fails if and only if it took 4 s or more; a slower fetch never gets a better outcome |
| Performance.HtmlSizeMeaning | app.py:516-518 | "HTML Size" passes under 100 KiB, warns from 100 up to 200 KiB, fails from 200 KiB, each an if-and-only-if |
| Performance.NonBlockingMeaning | app.py:533-537 | "Non-blocking JS" passes if and only if there are no external scripts or at least half of them are `async` or `defer` |
| Performance.CacheControlCoversExpires | app.py:544-554 | when "Cache Headers" passes, "Expires Header" passes too |
| Performance.PreconnectCoversDnsPrefetch | app.py:568-575 | when "Preconnect Hints" passes, "DNS Prefetch" passes too |
| Security.HttpsVerdicts | app.py:597-623 | 4 verdicts, one per check in emission order ("HTTPS Protocol", "No Mixed Content", "Secure Cookies", "HTTPS Redirect"), each with the outcome the cited lines decide |
| Security.AddHttpsChecks | app.py:597-623 | appends 4 records: the names and outcomes of the list become the old ones followed by `HttpsVerdicts`, and if every earlier value kept within 200 characters every value still does; the records held before the call stay in front, unchanged |
| Security.ProtocolVerdicts | app.py:597-613 | 2 verdicts, one per check in emission order ("HTTPS Protocol", "No Mixed Content"), each with the outcome the cited lines decide |
| Security.AddProtocolChecks | app.py:597-613 | appends 2 records: the names and outcomes of the list become the old ones followed by `ProtocolVerdicts`, and if every earlier value kept within 200 characters every value still does; the records held before the call stay in front, unchanged |
| Security.CookieVerdicts | app.py:615-623 | 2 verdicts, one per check in emission order ("Secure Cookies", "HTTPS Redirect"), each with the outcome the cited lines decide |
| Security.AddCookieChecks | app.py:615-623 | appends 2 records: the names and outcomes of the list become the old ones followed by `CookieVerdicts`, and if every earlier value kept within 200 characters every value still does; the records held before the call stay in front, unchanged |
| Security.HeaderVerdicts | app.py:625-640 | 4 verdicts, one per check in emission order ("HSTS Header", "X-Content-Type-Options", "X-Frame-Options", "Content-Security-Policy"), each with the outcome the cited lines decide |
| Security.AddHeaderChecks | app.py:625-640 | appends 4 records: the names and outcomes of the list become the old ones followed by `HeaderVerdicts`, and if every earlier value kept within 200 characters every value still does; the records held before the call stay in front, unchanged |
| Security.TransportHeaderVerdicts | app.py:625-632 | 2 verdicts, one per check in emission order ("HSTS Header", "X-Content-Type-Options"), each with the outcome the cited lines decide |
| Security.AddTransportHeaderChecks | app.py:625-632 | appends 2 records: the names and outcomes of the list become the old ones followed by `TransportHeaderVerdicts`, and if every earlier value kept within 200 characters every value still does; the records held before the call stay in front, unchanged |
| Security.FramingHeaderVerdicts | app.py:634-640 | 2 verdicts, one per check in emission order ("X-Frame-Options", "Content-Security-Policy"), each with the outcome the cited lines decide |
| Security.AddFramingHeaderChecks | app.py:634-640 | appends 2 records: the names and outcomes of the list become the old ones followed by `FramingHeaderVerdicts`, and if every earlier value kept within 200 characters every value still does; the records held before the call stay in front, unchanged |
| Security.AdditionalVerdicts | app.py:642-661 | 4 verdicts, one per check in emission order ("Referrer-Policy", "Permissions-Policy", "Secure Login Forms", "Trusted Scripts"), each with the outcome the cited lines decide |
| Security.AddAdditionalChecks | app.py:642-661 | appends 4 records: the names and outcomes of the list become the old ones followed by `AdditionalVerdicts`, and if every earlier value kept within 200 characters every value still does; the records held before the call stay in front, unchanged |
| Security.PolicyVerdicts | app.py:642-649 | 2 verdicts, one per check in emission order ("Referrer-Policy", "Permissions-Policy"), each with the outcome the cited lines decide |
| Security.AddPolicyChecks | app.py:642-649 | appends 2 records: the names and outcomes of the list become the old ones followed by `PolicyVerdicts`, and if every earlier value kept within 200 characters every value still does; the records held before the call stay in front, unchanged |
| Security.FormScriptVerdicts | app.py:651-661 | 2 verdicts, one per check in emission order ("Secure Login Forms", "Trusted Scripts"), each with the outcome the cited lines decide |
| Security.AddFormScriptChecks | app.py:651-661 | appends 2 records: the names and outcomes of the list become the old ones followed by `FormScriptVerdicts`, and if every earlier value kept within 200 characters every value still does; the records held before the call stay in front, unchanged |
| Security.Verdicts | app.py:596-664 | 12 verdicts (`Count`), the groups above in emission order |
| Security.Analyze | app.py:596-664 | `analyze_security_seo`: the records' names and outcomes are `Verdicts` of the page, there are 12 of them, every value keeps at most 200 characters, and `total`, `passed` and `score` are those `Summarize` gives the records |
| Security.PlainHttpPassCount | app.py:601-623 | on a URL whose scheme is not `https`, at most 9 of the 12 checks pass |
| Security.PlainHttpScore | app.py:601-664 | the score of such a page is at most 75.0 |
| Social.OpenGraphVerdicts | app.py:669-695 | 5 verdicts, one per check in emission order ("OG Title", "OG Description", "OG Image", "OG URL", "OG Type"), each with the outcome the cited lines decide |
| Social.AddOpenGraphChecks | app.py:669-695 | appends 5 records: the names and outcomes of the list become the old ones followed by `OpenGraphVerdicts`, and if every earlier value kept within 200 characters every value still does; the records held before the call stay in front, unchanged |
| Social.OgCoreVerdicts | app.py:669-685 | 3 verdicts, one per check in emission order ("OG Title", "OG Description", "OG Image"), each with the outcome the cited lines decide |
| Social.AddOgCoreChecks | app.py:669-685 | appends 3 records: the names and outcomes of the list become the old ones followed by `OgCoreVerdicts`, and if every earlier value kept within 200 characters every value still does; the records held before the call stay in front, unchanged |
| Social.OgExtraVerdicts | app.py:687-695 | 2 verdicts, one per check in emission order ("OG URL", "OG Type"), each with the outcome the cited lines decide |
| Social.AddOgExtraChecks | app.py:687-695 | appends 2 records: the names and outcomes of the list become the old ones followed by `OgExtraVerdicts`, and if every earlier value kept within 200 characters every value still does; the records held before the call stay in front, unchanged |
| Social.TwitterVerdicts | app.py:697-711 | 3 verdicts, one per check in emission order ("Twitter Card", "Twitter Title", "Twitter Image"), each with the outcome the cited lines decide |
| Social.AddTwitterChecks | app.py:697-711 | appends 3 records: the names and outcomes of the list become the old ones followed by `TwitterVerdicts`, and if every earlier value kept within 200 characters every value still does; the records held before the call stay in front, unchanged |
| Social.IntegrationVerdicts | app.py:713-722 | 2 verdicts, one per check in emission order ("Social Profile Links", "Share Buttons"), each with the outcome the cited lines decide |
| Social.AddIntegrationChecks | app.py:713-722 | appends 2 records: the names and outcomes of the list become the old ones followed by `IntegrationVerdicts`, and if every earlier value kept within 200 characters every value still does; the records held before the call stay in front, unchanged |
| Social.Verdicts | app.py:668-725 | 10 verdicts (`Count`), the groups above in emission order |
| Social.Analyze | app.py:668-725 | `analyze_social_seo`: the records' names and outcomes are `Verdicts` of the page, there are 10 of them, every value keeps at most 200 characters, and `total`, `passed` and `score` are those `Summarize` gives the records |
| Social.TwitterFallsBackToOpenGraph | app.py:703-711 | "Twitter Title" and "Twitter Image" each warn if and only if neither the Twitter tag nor the Open Graph tag is present, so passing Open Graph title and image make both pass |
| Social.SocialLinksMeaning | app.py:713-717 | "Social Profile Links" passes if and only if some link's `href` names one of the six networks, in any letter case |
| Local.NapVerdicts | app.py:730-763 | 5 verdicts, one per check in emission order ("Phone Number", "Physical Address", "Email Address", "Click-to-Call", "Click-to-Email"), each with the outcome the cited lines decide |
| Local.AddNapChecks | app.py:730-763 | appends 5 records: the names and outcomes of the list become the old ones followed by `NapVerdicts`, and if every earlier value kept within 200 characters every value still does; the records held before the call stay in front, unchanged |
| Local.ContactTextVerdicts | app.py:730-751 | 3 verdicts, one per check in emission order ("Phone Number", "Physical Address", "Email Address"), each with the outcome the cited lines decide |
| Local.AddContactTextChecks | app.py:730-751 | appends 3 records: the names and outcomes of the list become the old ones followed by `ContactTextVerdicts`, and if every earlier value kept within 200 characters every value still does; the records held before the call stay in front, unchanged |
| Local.ContactLinkVerdicts | app.py:753-763 | 2 verdicts, one per check in emission order ("Click-to-Call", "Click-to-Email"), each with the outcome the cited lines decide |
| Local.AddContactLinkChecks | app.py:753-763 | appends 2 records: the names and outcomes of the list become the old ones followed by `ContactLinkVerdicts`, and if every earlier value kept within 200 characters every value still does; the records held before the call stay in front, unchanged |
| Local.SchemaVerdicts | app.py:765-795 | 5 verdicts, one per check in emission order ("LocalBusiness Schema", "Organization Schema", "ContactPoint Schema", "Opening Hours Schema", "GeoCoordinates"), each with the outcome the cited lines decide |
| Local.AddSchemaChecks | app.py:765-795 | appends 5 records: the names and outcomes of the list become the old ones followed by `SchemaVerdicts`, and if every earlier value kept within 200 characters every value still does; the records held before the call stay in front, unchanged |
| Local.BusinessSchemaVerdicts | app.py:765-783 | 3 verdicts, one per check in emission order ("LocalBusiness Schema", "Organization Schema", "ContactPoint Schema"), each with the outcome the cited lines decide |
| Local.AddBusinessSchemaChecks | app.py:765-783 | appends 3 records: the names and outcomes of the list become the old ones followed by `BusinessSchemaVerdicts`, and if every earlier value kept within 200 characters every value still does; the records held before the call stay in front, unchanged |
| Local.PlaceSchemaVerdicts | app.py:785-795 | 2 verdicts, one per check in emission order ("Opening Hours Schema", "GeoCoordinates"), each with the outcome the cited lines decide |
| Local.AddPlaceSchemaChecks | app.py:785-795 | appends 2 records: the names and outcomes of the list become the old ones followed by `PlaceSchemaVerdicts`, and if every earlier value kept within 200 characters every value still does; the records held before the call stay in front, unchanged |
| Local.SignalVerdicts | app.py:797-827 | 5 verdicts, one per check in emission order ("Google Maps Embed", "Directions Link", "Service Area", "Local Keywords", "Reviews Section"), each with the outcome the cited lines decide |
| Local.AddSignalChecks | app.py:797-827 | appends 5 records: the names and outcomes of the list become the old ones followed by `SignalVerdicts`, and if every earlier value kept within 200 characters every value still does; the records held before the call stay in front, unchanged |
| Local.MapVerdicts | app.py:797-814 | 3 verdicts, one per check in emission order ("Google Maps Embed", "Directions Link", "Service Area"), each with the outcome the cited lines decide |
| Local.AddMapChecks | app.py:797-814 | appends 3 records: the names and outcomes of the list become the old ones followed by `MapVerdicts`, and if every earlier value kept within 200 characters every value still does; the records held before the call stay in front, unchanged |
| Local.ReputationVerdicts | app.py:816-827 | 2 verdicts, one per check in emission order ("Local Keywords", "Reviews Section"), each with the outcome the cited lines decide |
| Local.AddReputationChecks | app.py:816-827 | appends 2 records: the names and outcomes of the list become the old ones followed by `ReputationVerdicts`, and if every earlier value kept within 200 characters every value still does; the records held before the call stay in front, unchanged |
| Local.Verdicts | app.py:729-830 | 15 verdicts (`Count`), the groups above in emission order |
| Local.Analyze | app.py:729-830 | `analyze_local_seo`: the records' names and outcomes are `Verdicts` of the page, there are 15 of them, every value keeps at most 200 characters, and `total`, `passed` and `score` are those `Summarize` gives the records |
| Local.OrganizationIsLocal | app.py:765-777 | when "Organization Schema" passes, "LocalBusiness Schema" passes too |
| Local.GeoMeansLowercaseGeo | app.py:791-793 | "GeoCoordinates" passes if and only if the lower-cased HTML contains `geo` |
| Geo.ParsingVerdicts | app.py:835-882 | 6 verdicts, one per check in emission order ("JSON-LD Structured Data", "FAQ Schema", "HowTo Schema", "Entity Schema Markup", "Speakable Schema", "Entity sameAs Links"), each with the outcome the cited lines decide |
| Geo.AddParsingChecks | app.py:835-882 | appends 6 records: the names and outcomes of the list become the old ones followed by `ParsingVerdicts`, and if every earlier value kept within 200 characters every value still does; the records held before the call stay in front, unchanged |
| Geo.SchemaVerdicts | app.py:835-863 | 3 verdicts, one per check in emission order ("JSON-LD Structured Data", "FAQ Schema", "HowTo Schema"), each with the outcome the cited lines decide |
| Geo.AddSchemaChecks | app.py:835-863 | appends 3 records: the names and outcomes of the list become the old ones followed by `SchemaVerdicts`, and if every earlier value kept within 200 characters every value still does; the records held before the call stay in front, unchanged |
| Geo.EntityVerdicts | app.py:865-882 | 3 verdicts, one per check in emission order ("Entity Schema Markup", "Speakable Schema", "Entity sameAs Links"), each with the outcome the cited lines decide |
| Geo.AddEntityChecks | app.py:865-882 | appends 3 records: the names and outcomes of the list become the old ones followed by `EntityVerdicts`, and if every earlier value kept within 200 characters every value still does; the records held before the call stay in front, unchanged |
| Geo.SemanticVerdicts | app.py:884-919 | 6 verdicts, one per check in emission order ("Semantic HTML5", "Data Tables", "Structured Lists", "Figure Captions", "Definition Lists", "Blockquote Citations"), each with the outcome the cited lines decide |
| Geo.AddSemanticChecks | app.py:884-919 | appends 6 records: the names and outcomes of the list become the old ones followed by `SemanticVerdicts`, and if every earlier value kept within 200 characters every value still does; the records held before the call stay in front, unchanged |
| Geo.LayoutVerdicts | app.py:884-900 | 3 verdicts, one per check in emission order ("Semantic HTML5", "Data Tables", "Structured Lists"), each with the outcome the cited lines decide |
| Geo.AddLayoutChecks | app.py:884-900 | appends 3 records: the names and outcomes of the list become the old ones followed by `LayoutVerdicts`, and if every earlier value kept within 200 characters every value still does; the records held before the call stay in front, unchanged |
| Geo.AnnotationVerdicts | app.py:902-919 | 3 verdicts, one per check in emission order ("Figure Captions", "Definition Lists", "Blockquote Citations"), each with the outcome the cited lines decide |
| Geo.AddAnnotationChecks | app.py:902-919 | appends 3 records: the names and outcomes of the list become the old ones followed by `AnnotationVerdicts`, and if every earlier value kept within 200 characters every value still does; the records held before the call stay in front, unchanged |
| Geo.InterpretabilityVerdicts | app.py:921-963 | 6 verdicts, one per check in emission order ("Q&A Patterns", "Direct Definitions", "Answer-First Writing", "Self-Contained Sentences", "Plain Language", "Conversational Tone"), each with the outcome the cited lines decide |
| Geo.AddInterpretabilityChecks | app.py:921-963 | appends 6 records: the names and outcomes of the list become the old ones followed by `InterpretabilityVerdicts`, and if every earlier value kept within 200 characters every value still does; the records held before the call stay in front, unchanged |
| Geo.AnswerVerdicts | app.py:921-940 | 3 verdicts, one per check in emission order ("Q&A Patterns", "Direct Definitions", "Answer-First Writing"), each with the outcome the cited lines decide |
| Geo.AddAnswerChecks | app.py:921-940 | appends 3 records: the names and outcomes of the list become the old ones followed by `AnswerVerdicts`, and if every earlier value kept within 200 characters every value still does; the records held before the call stay in front, unchanged |
| Geo.StyleVerdicts | app.py:942-963 | 3 verdicts, one per check in emission order ("Self-Contained Sentences", "Plain Language", "Conversational Tone"), each with the outcome the cited lines decide |
| Geo.AddStyleChecks | app.py:942-963 | appends 3 records: the names and outcomes of the list become the old ones followed by `StyleVerdicts`, and if every earlier value kept within 200 characters every value still does; the records held before the call stay in front, unchanged |
| Geo.SnippetVerdicts | app.py:965-1006 | 6 verdicts, one per check in emission order ("Question Headings", "Descriptive Headings", "Concise Paragraphs", "Section Granularity", "Step-by-Step Format", "Concrete Examples"), each with the outcome the cited lines decide |
| Geo.AddSnippetChecks | app.py:965-1006 | appends 6 records: the names and outcomes of the list become the old ones followed by `SnippetVerdicts`, and if every earlier value kept within 200 characters every value still does; the records held before the call stay in front, unchanged |
| Geo.HeadingVerdicts | app.py:965-984 | 3 verdicts, one per check in emission order ("Question Headings", "Descriptive Headings", "Concise Paragraphs"), each with the outcome the cited lines decide |
| Geo.AddHeadingChecks | app.py:965-984 | appends 3 records: the names and outcomes of the list become the old ones followed by `HeadingVerdicts`, and if every earlier value kept within 200 characters every value still does; the records held before the call stay in front, unchanged |
| Geo.PassageVerdicts | app.py:986-1006 | 3 verdicts, one per check in emission order ("Section Granularity", "Step-by-Step Format", "Concrete Examples"), each with the outcome the cited lines decide |
| Geo.AddPassageChecks | app.py:986-1006 | appends 3 records: the names and outcomes of the list become the old ones followed by `PassageVerdicts`, and if every earlier value kept within 200 characters every value still does; the records held before the call stay in front, unchanged |
| Geo.TrustVerdicts | app.py:1008-1046 | 6 verdicts, one per check in emission order ("Content Timestamps", "Last-Modified Header", "Author Attribution", "Source Citations", "LLMs.txt File", "AI-Friendly Length"), each with the outcome the cited lines decide |
| Geo.AddTrustChecks | app.py:1008-1046 | appends 6 records: the names and outcomes of the list become the old ones followed by `TrustVerdicts`, and if every earlier value kept within 200 characters every value still does; the records held before the call stay in front, unchanged |
| Geo.FreshnessVerdicts | app.py:1008-1027 | 3 verdicts, one per check in emission order ("Content Timestamps", "Last-Modified Header", "Author Attribution"), each with the outcome the cited lines decide |
| Geo.AddFreshnessChecks | app.py:1008-1027 | appends 3 records: the names and outcomes of the list become the old ones followed by `FreshnessVerdicts`, and if every earlier value kept within 200 characters every value still does; the records held before the call stay in front, unchanged |
| Geo.OptimizationVerdicts | app.py:1029-1046 | 3 verdicts, one per check in emission order ("Source Citations", "LLMs.txt File", "AI-Friendly Length"), each with the outcome the cited lines decide |
| Geo.AddOptimizationChecks | app.py:1029-1046 | appends 3 records: the names and outcomes of the list become the old ones followed by `OptimizationVerdicts`, and if every earlier value kept within 200 characters every value still does; the records held before the call stay in front, unchanged |
| Geo.Verdicts | app.py:834-1049 | 30 verdicts (`Count`), the groups above in emission order |
| Geo.Analyze | app.py:834-1049 | `analyze_geo_aeo`: the records' names and outcomes are `Verdicts` of the page, there are 30 of them, every value keeps at most 200 characters, and `total`, `passed` and `score` are those `Summarize` gives the records |
| Geo.CountAllPositive | app.py:1001-1004 | a sum of `count` over non-empty phrases is positive if and only if one of the phrases occurs |
| Geo.NoExamplePhrases | app.py:1001-1006 | a text with none of the example phrases is `info` on "Concrete Examples" |
| Geo.AnswerFirstMatchesInsideWords | app.py:934-940 | a first paragraph containing `this` in any letter case passes "Answer-First Writing", since `is` is tested as a substring |
| Geo.NoParagraphBuriedLede | app.py:934-940 | a page without paragraphs warns on "Answer-First Writing" |
| Geo.StyleRatiosExact | app.py:942-963 | the three style checks pass if and only if the source's guarded ratios, computed exactly, are below 0.2, below 0.05 and above 0.005 |
| Geo.SectionGranularityExact | app.py:986-992 | "Section Granularity" passes if and only if `(h2 + h3) / (words / 300) >= 0.8`, computed exactly, and always for 300 words or fewer |
| Geo.NoHeadingsDescriptive | app.py:973-978 | a page without `<h1>` to `<h4>` headings passes "Descriptive Headings" |
| Rules.TierAtLeastBands | app.py:310-311 | a larger count never gets a worse tier, and `pass`, `warning` and `fail` are each exactly the band they are written for |
| Rules.TierBelowBands | app.py:516-518 | a larger measurement never gets a better tier, and each outcome is exactly its band |
| Rules.H1Status | app.py:242-243 | exactly one `<h1>` passes, none fails, more than one warns |
| Rules.AiLengthStatus | app.py:1044-1046 | 500 to 3000 words pass, under 300 warn, 300-499 or over 3000 are `info` |
| Rules.MostlyUniqueExact | app.py:213-214 | the integer test agrees with `unique >= total * 0.7` on exact numbers |
| Rules.FewEmptyAltsExact | app.py:292-293 | the integer test agrees with `empty <= images * 0.2` on exact numbers |
| Rules.FewSmallTargetsExact | app.py:452-453 | the integer test agrees with `small < targets * 0.1` on exact numbers |
| Rules.AtLeastHalfExact | app.py:535-536 | the integer test agrees with `part >= whole * 0.5` on exact numbers |
| Rules.DiverseVocabularyExact | app.py:342-344 | the integer test agrees with the guarded ratio `> 0.3` |
| Rules.FewPronounStartsExact | app.py:942-946 | the integer test agrees with the guarded ratio `< 0.2` |
| Rules.PlainLanguageExact | app.py:950-953 | the integer test agrees with the guarded ratio `< 0.05` |
| Rules.ConversationalExact | app.py:957-961 | the integer test agrees with the guarded ratio `> 0.005` |
| Rules.SentenceLengthExact | app.py:334-338 | the integer test agrees with `10 <= avg <= 20` for the guarded average |
| Rules.LinkDensityExact | app.py:372-373 | the integer test agrees with `1 <= density <= 10` for the guarded density, which is 0 and fails without words |
| Rules.SectionsExact | app.py:986-990 | the integer test agrees with the guarded section ratio `>= 0.8` |
| Rules.SizeBelowKbExact | app.py:483-485 | `bytes < 1024 * kb` agrees with `bytes / 1024 < kb` on exact numbers |
| Rules.HierarchyRecursive | app.py:263-264 | the all-pairs hierarchy test agrees with a pair-by-pair recursive reading |
| Rules.HierarchyDepth | app.py:263-264 | in an accepted outline the heading at position i is at most i levels below the first |
| Rules.HierarchyAppend | app.py:263-264 | two outlines join into an accepted one if and only if both are accepted and the seam skips no level |
| Rules.HierarchyExamples | app.py:263-264 | no headings and 1,2,3,2,1 are accepted; 1,3 is not |
| Rules.UrlDepthConcat | app.py:130 | the depth of `a/b` is the depth of `a` plus that of `b` |
| Rules.UrlDepthSegment | app.py:130 | `/` has depth 0; a slash-free segment and `/` + segment have depth 1 |
| Rules.UrlDepthBound | app.py:130 | the depth is at most the number of `/` plus one |
| Rules.ParamCountSeparators | app.py:135-136 | an empty query has no parameters, any other one has one more than it has `&` |
| Rules.DistinctCountBound | app.py:213 | a list has at most as many distinct elements as elements, and exactly as many when none repeats |
| ImageRules.AltStatusMeaning | app.py:270-271 | "Image Alt Text" passes if and only if every image has a non-empty `alt` |
| ImageRules.DimensionStatusMeaning | app.py:274-275 | "Image Dimensions" passes if and only if every image has width and height |
| ImageRules.LazyStatusMeaning | app.py:278-279 | "Lazy Loading" warns if and only if there are more than three images and none is lazy |
| ImageRules.WebpStatusMeaning | app.py:287-288 | "Modern Image Formats" is `info` if and only if there are images and none is WebP |
| ImageRules.NoImagesPass | app.py:268-294 | without images all six image rules pass |
| ImageRules.FewImagesPass | app.py:278-284 | with at most two images, lazy loading and `srcset` both pass |
| Page.Levels | app.py:263 | one level per heading, the heading's own level, in order |
| Text.LowerFixpoint | app.py:124 | `s == s.lower()` if and only if `s` has no upper-case letter |
| Text.ContainsAt | app.py:62 | `sub in s` if and only if `sub` occurs at some position of `s` |
| Text.ContainsEmpty | app.py:77 | the empty string is in every string |
| Text.OccurrencesPositive | app.py:1003 | `s.count(sub)` is positive if and only if `sub in s`, for non-empty `sub` |
| Text.Split | app.py:130 | `split` gives at least one piece |
| Text.SplitLength | app.py:136 | `split` gives one more piece than there are separators |
| Text.SplitPieces | app.py:130 | no piece contains the separator |
| Text.SplitJoin | app.py:130 | joining the pieces with the separator gives back the string |
| Text.SplitConcat | app.py:130 | splitting `a + sep + b` splits `a` and `b` and joins the results |
| Text.SplitNoSeparator | app.py:130 | a string without the separator splits into itself |
| Text.Words | app.py:305 | every word is non-empty and holds no white space |
| Text.WordsJoin | app.py:305 | words joined with single spaces split back into the same words |
| Text.WordsOfWord | app.py:305 | a word followed by nothing or by white space splits off first |
| Text.StripBlank | app.py:258 | `s.strip()` is empty if and only if `s` is all white space |
| Text.NatToString | app.py:243 | `str(n)` is a non-empty string of digits |
| Text.NatToStringRoundTrip | app.py:243 | reading `str(n)` back as a decimal number gives `n` |
| Text.RoundHalfEvenNearest | app.py:725 | `round` gives a result within half a unit of the exact quotient |
| Text.RoundHalfEvenAtMost | app.py:1107 | a mean of values each at most a bound rounds to at most that bound |
| Audit.Lookup | app.py:1085-1098 | a key that is found names the analyzer whose key it is |
| Audit.LookupKey | app.py:1085-1095 | each analyzer is found under its own key, so the nine keys are distinct |
| Audit.CheckCount | app.py:1085-1095 | every analyzer emits at least one record |
| Audit.TableOfTabulates | app.py:1096-1100 | the nine analyzers' own verdicts make a table of the page |
| Audit.TabulatesUnique | app.py:1096-1100 | two tables of the same page are equal |
| Audit.TabulatesSized | app.py:1096-1100 | in such a table each row has as many verdicts as its analyzer has checks |
| Audit.RunAnalyzer | app.py:1098-1099 | `analyzer_func(url, soup, response, load_time)`: the result is consistent, its values are bounded, its names and outcomes are the table's row, and its total, passed count and score are that row's |
| Audit.Record | app.py:1097-1102 | a known key stores its result (the key joins the dictionary order at its first request only) and adds its total and passed counts, keeping the loop invariant |
| Audit.Skip | app.py:1097 | an unknown key keeps the loop invariant unchanged |
| Audit.StepKeys | app.py:1096-1100 | one more key extends the runs by its analyzer, if any, and the dictionary keys by it, if known and new |
| Audit.StepTotals | app.py:1101-1102 | one more known key adds its analyzer's check count and pass count to the totals; an unknown one adds nothing |
| Audit.Conclude | app.py:1104-1108 | after the last key, the dictionary, the totals and the mean of the stored scores form the success body |
| Audit.Aggregate | app.py:1096-1108 | the report holds the URL, the known keys in first-request order each with its analyzer's result, totals over every run (a repeated key counted each time) and the overall score `round(sum(scores) / len(scores), 1)`, or 0 with no category |
| Audit.TableExists | app.py:1096-1100 | every page has a table |
| Audit.AnalyzeUrl | app.py:1066-1115 | an empty URL gives 400 `URL is required`; a URL not starting with `http` gets `https://`; a failed fetch gives 400 with the message and the URL; a fetched page gives a success body that summarizes the requested keys, all nine by default, each analyzer run on the normalized URL as `split` (`urlparse`) breaks it up |
| Audit.StoredScoresAgree | app.py:1105-1107 | the sum of the stored scores is the sum of the analyzers' scores |
| Audit.StoredKeys | app.py:1096-1100 | a key is stored if and only if it was requested and is known, and no key is stored twice |
| Audit.KnownDistinct | app.py:1096-1100 | known keys requested once each are stored in request order and run in that order |
| Audit.UnknownKeySkipped | app.py:1097 | an unknown key changes neither the stored keys, the runs nor the overall score |
| Audit.RepeatedKeyCountedTwice | app.py:1096-1107 | a repeated known key adds its checks and passes to the totals again but changes neither the stored keys nor the overall score |
| Audit.PassedWithinTotal | app.py:1101-1102 | the total passed never exceeds the total checks |
| Audit.ScoreTotalBound | app.py:1105-1107 | the scores sum to at most 100.0 per category |
| Audit.OverallScoreBound | app.py:1104-1110 | the overall score is at most 100.0, and 0 when no requested key is known |
| Audit.ChecksTotalAppend | app.py:1101 | one more run adds its analyzer's check count |
| Audit.PassedTotalAppend | app.py:1102 | one more run adds its analyzer's pass count |
| Audit.DefaultRequestRunsAll | app.py:1070 | a request without `categories` stores all nine keys and runs each analyzer once, in table order |
| Audit.AllChecksTotal | app.py:1085-1095 | the nine analyzers emit 171 checks together |
| Audit.SummarizesOrdered | app.py:1095-1100 | a success body lists each of its `categories` keys exactly once in `order`, so it is a report the issue summary accepts |
| Audit.NormalizeIdempotent | app.py:1075-1076 | the normalized URL starts with `http`, and normalizing again changes nothing |
| Issues.IssueLines | app.py:1155-1156 | one line per issue, the i-th formatted from the i-th issue as `  - {name}: {value} (Recommendation: {recommendation})` |
| Issues.CollectIssues | app.py:1149-1156 | the lines built over the dictionary keys in order are `SummaryLines` of those keys |
| Issues.AppendCategory | app.py:1151-1156 | the lines gain exactly the category's header and listed issues, or nothing when it has no issue |
| Issues.AppendIssueLines | app.py:1155-1156 | the lines gain one line per issue among the first n, in order |
| Issues.ListedLines | app.py:1153-1156 | the header `\n{KEY} ({score:.0f}% score):` (the key upper-cased, the score rounded to a whole percent) followed by the lines of the first `min(issues, 5)` issues are the category's lines |
| Issues.SummaryStep | app.py:1150 | one more key adds exactly its category's lines |
| Issues.RecommendationIssues | app.py:1142-1158 | for a report whose `order` lists each category key once, as a dictionary iterates; a missing or empty audit gives 400 `Audit results required`; otherwise the issue text is the summary lines joined with newlines |
| Issues.IssuesPrefix | app.py:1152 | the issues of a list are the issues before any position followed by those after it |
| Issues.ListedExactly | app.py:1152-1155 | a failing or warning record preceded by fewer than five issues is listed, at its position among the issues; at most five are listed, all of them issues of the category |
| Issues.PassingCategorySilent | app.py:1153 | a category whose checks all pass adds no line |
| Issues.CategoryLinesShape | app.py:1152-1156 | a category adds nothing if and only if none of its checks fails or warns; otherwise the header comes first and one line follows per listed issue, six lines at most |
| Issues.SummaryLinesBound | app.py:1150-1156 | the summary has at most six lines per category |
| Issues.AllPassingSilent | app.py:1150-1156 | when every category passes all its checks the summary is empty |

## Left out

- Network access is left out. Fetching the page (`fetch_website`) is the `fetch` parameter of `Audit.AnalyzeUrl`. It returns either the page facts or the request error's message. The three probes (`robots.txt`, `sitemap.xml`, `llms.txt` through `safe_get`) are inputs on `Page` as an optional status code.
- URL splitting and joining are inputs. `Target` is what `urlparse` makes of the normalized URL: `Audit.AnalyzeUrl` takes it from its `split` parameter and requires only that `split` keeps the URL it is given; the scheme, host, path and query are not derived from the text. `Anchor.resolved` is what `urljoin` makes of a link's `href` against the page URL, taken as a field of the page facts.
- HTML parsing and regular-expression searches are left out. BeautifulSoup searches and `re` searches are done before the model starts, and their results are fields of `Page`. The rules over those results are modelled: counts, list filters, substring tests and thresholds.
- The load time is a clock reading. It is an input, in whole milliseconds (`Page.loadTimeMs`).
- Floating point is left out. Scores and ratios are computed on exact rationals. `round(x, 1)` is rounding half to even of the exact quotient, so binary representation error is not modelled. Formatted values in record `value` strings (`f'{x:.1f}'`) use the same exact rounding.
- `Text.Lower` and `Text.Upper` change only ASCII letters. Python's full Unicode case mapping is not modelled.
- The `500 Analysis failed` path is left out. The model's analyzers are total functions of the page facts, so an exception inside an analyzer or in BeautifulSoup does not arise. The request's `categories` is reduced to an optional list of strings (`None` for an absent key). Malformed values, which also end in 500, are not modelled: `null` or a number (the loop over it raises `TypeError`) and a list holding an unhashable element such as a list (the `in analyzers` test raises `TypeError`).
- The `categories` dictionary is a `map` plus `order`, the list of its keys in insertion order. Python dictionaries iterate in that order. The JSON body is not modelled: `jsonify` sorts the keys by default, so a client that posts the body back to `/api/ai-recommendations` sends the categories in alphabetical order, not in `order`.
- The request body of `/api/ai-recommendations` is reduced to an optional `Audit.Report`. `None` stands for a missing or empty `auditResults`. The `.get` defaults for a malformed report (no `categories`, no `checks`, no `score`) are not modelled: a `Report` always has them.
- `Issues.RecommendationIssues` stops at the issue text. The prompt wording, the call to the language-model server, its timeout and the parsing of its reply are left out: they are network I/O and fixed text.
- Flask routing, static file serving, CORS and the `/api/health` constant response are not part of this model.
- Record text is not stated in the contracts of the `Add…Checks` methods and the `Analyze` methods. They state each record's name and outcome, the 200-character bound on values and that the records held before a call are kept unchanged; the other fields are set by the `add_check` calls in the bodies only. A string literal in a contract is expanded character by character by the solver, and contracts carrying every record's full text exceed the resource limit. The methods concerned, one per line:
- AddRobotsChecks (Technical.AddRobotsChecks): the description, value, recommendation, impact and category of each appended record are not stated.
- AddCrawlabilityChecks (Technical.AddCrawlabilityChecks): the description, value, recommendation, impact and category of each appended record are not stated.
- AddCanonicalChecks (Technical.AddCanonicalChecks): the description, value, recommendation, impact and category of each appended record are not stated.
- AddIndexingChecks (Technical.AddIndexingChecks): the description, value, recommendation, impact and category of each appended record are not stated.
- AddSecurityChecks (Technical.AddSecurityChecks): the description, value, recommendation, impact and category of each appended record are not stated.
- AddTransportChecks (Technical.AddTransportChecks): the description, value, recommendation, impact and category of each appended record are not stated.
- AddFramingChecks (Technical.AddFramingChecks): the description, value, recommendation, impact and category of each appended record are not stated.
- AddResourceChecks (Technical.AddResourceChecks): the description, value, recommendation, impact and category of each appended record are not stated.
- AddUrlChecks (Technical.AddUrlChecks): the description, value, recommendation, impact and category of each appended record are not stated.
- AddUrlFormChecks (Technical.AddUrlFormChecks): the description, value, recommendation, impact and category of each appended record are not stated.
- AddUrlPathChecks (Technical.AddUrlPathChecks): the description, value, recommendation, impact and category of each appended record are not stated.
- AddLinkingChecks (Technical.AddLinkingChecks): the description, value, recommendation, impact and category of each appended record are not stated.
- AddLinkCountChecks (Technical.AddLinkCountChecks): the description, value, recommendation, impact and category of each appended record are not stated.
- AddLinkQualityChecks (Technical.AddLinkQualityChecks): the description, value, recommendation, impact and category of each appended record are not stated.
- AddStructureChecks (Technical.AddStructureChecks): the description, value, recommendation, impact and category of each appended record are not stated.
- AddSchemaChecks (Technical.AddSchemaChecks): the description, value, recommendation, impact and category of each appended record are not stated.
- AddDocumentChecks (Technical.AddDocumentChecks): the description, value, recommendation, impact and category of each appended record are not stated.
- AddTitleMetaChecks (OnPage.AddTitleMetaChecks): the description, value, recommendation, impact and category of each appended record are not stated.
- AddTitleChecks (OnPage.AddTitleChecks): the description, value, recommendation, impact and category of each appended record are not stated.
- AddDescriptionChecks (OnPage.AddDescriptionChecks): the description, value, recommendation, impact and category of each appended record are not stated.
- AddHeadExtrasChecks (OnPage.AddHeadExtrasChecks): the description, value, recommendation, impact and category of each appended record are not stated.
- AddHeadingChecks (OnPage.AddHeadingChecks): the description, value, recommendation, impact and category of each appended record are not stated.
- AddHeadingCountChecks (OnPage.AddHeadingCountChecks): the description, value, recommendation, impact and category of each appended record are not stated.
- AddHeadingShapeChecks (OnPage.AddHeadingShapeChecks): the description, value, recommendation, impact and category of each appended record are not stated.
- AddImageChecks (OnPage.AddImageChecks): the description, value, recommendation, impact and category of each appended record are not stated.
- AddImageAttrChecks (OnPage.AddImageAttrChecks): the description, value, recommendation, impact and category of each appended record are not stated.
- AddImageFormatChecks (OnPage.AddImageFormatChecks): the description, value, recommendation, impact and category of each appended record are not stated.
- AddStructureChecks (OnPage.AddStructureChecks): the description, value, recommendation, impact and category of each appended record are not stated.
- AddBlockChecks (OnPage.AddBlockChecks): the description, value, recommendation, impact and category of each appended record are not stated.
- AddLengthChecks (OnPage.AddLengthChecks): the description, value, recommendation, impact and category of each appended record are not stated.
- AddQualityChecks (Content.AddQualityChecks): the description, value, recommendation, impact and category of each appended record are not stated.
- AddProseChecks (Content.AddProseChecks): the description, value, recommendation, impact and category of each appended record are not stated.
- AddVocabularyChecks (Content.AddVocabularyChecks): the description, value, recommendation, impact and category of each appended record are not stated.
- AddEnrichmentChecks (Content.AddEnrichmentChecks): the description, value, recommendation, impact and category of each appended record are not stated.
- AddLinkingChecks (Content.AddLinkingChecks): the description, value, recommendation, impact and category of each appended record are not stated.
- AddLinkCountChecks (Content.AddLinkCountChecks): the description, value, recommendation, impact and category of each appended record are not stated.
- AddLinkRelChecks (Content.AddLinkRelChecks): the description, value, recommendation, impact and category of each appended record are not stated.
- AddTrustChecks (Content.AddTrustChecks): the description, value, recommendation, impact and category of each appended record are not stated.
- AddAuthorshipChecks (Content.AddAuthorshipChecks): the description, value, recommendation, impact and category of each appended record are not stated.
- AddExpertiseChecks (Content.AddExpertiseChecks): the description, value, recommendation, impact and category of each appended record are not stated.
- AddResponsivenessChecks (Mobile.AddResponsivenessChecks): the description, value, recommendation, impact and category of each appended record are not stated.
- AddViewportChecks (Mobile.AddViewportChecks): the description, value, recommendation, impact and category of each appended record are not stated.
- AddScalingChecks (Mobile.AddScalingChecks): the description, value, recommendation, impact and category of each appended record are not stated.
- AddUxChecks (Mobile.AddUxChecks): the description, value, recommendation, impact and category of each appended record are not stated.
- AddTouchChecks (Mobile.AddTouchChecks): the description, value, recommendation, impact and category of each appended record are not stated.
- AddLayoutChecks (Mobile.AddLayoutChecks): the description, value, recommendation, impact and category of each appended record are not stated.
- AddPerformanceChecks (Mobile.AddPerformanceChecks): the description, value, recommendation, impact and category of each appended record are not stated.
- AddWeightChecks (Mobile.AddWeightChecks): the description, value, recommendation, impact and category of each appended record are not stated.
- AddIntegrationChecks (Mobile.AddIntegrationChecks): the description, value, recommendation, impact and category of each appended record are not stated.
- AddVitalsChecks (Performance.AddVitalsChecks): the description, value, recommendation, impact and category of each appended record are not stated.
- AddLoadChecks (Performance.AddLoadChecks): the description, value, recommendation, impact and category of each appended record are not stated.
- AddInteractionChecks (Performance.AddInteractionChecks): the description, value, recommendation, impact and category of each appended record are not stated.
- AddCachingChecks (Performance.AddCachingChecks): the description, value, recommendation, impact and category of each appended record are not stated.
- AddCompressionChecks (Performance.AddCompressionChecks): the description, value, recommendation, impact and category of each appended record are not stated.
- AddValidatorChecks (Performance.AddValidatorChecks): the description, value, recommendation, impact and category of each appended record are not stated.
- AddResourceChecks (Performance.AddResourceChecks): the description, value, recommendation, impact and category of each appended record are not stated.
- AddFileCountChecks (Performance.AddFileCountChecks): the description, value, recommendation, impact and category of each appended record are not stated.
- AddHintChecks (Performance.AddHintChecks): the description, value, recommendation, impact and category of each appended record are not stated.
- AddImageChecks (Performance.AddImageChecks): the description, value, recommendation, impact and category of each appended record are not stated.
- AddHttpsChecks (Security.AddHttpsChecks): the description, value, recommendation, impact and category of each appended record are not stated.
- AddProtocolChecks (Security.AddProtocolChecks): the description, value, recommendation, impact and category of each appended record are not stated.
- AddCookieChecks (Security.AddCookieChecks): the description, value, recommendation, impact and category of each appended record are not stated.
- AddHeaderChecks (Security.AddHeaderChecks): the description, value, recommendation, impact and category of each appended record are not stated.
- AddTransportHeaderChecks (Security.AddTransportHeaderChecks): the description, value, recommendation, impact and category of each appended record are not stated.
- AddFramingHeaderChecks (Security.AddFramingHeaderChecks): the description, value, recommendation, impact and category of each appended record are not stated.
- AddAdditionalChecks (Security.AddAdditionalChecks): the description, value, recommendation, impact and category of each appended record are not stated.
- AddPolicyChecks (Security.AddPolicyChecks): the description, value, recommendation, impact and category of each appended record are not stated.
- AddFormScriptChecks (Security.AddFormScriptChecks): the description, value, recommendation, impact and category of each appended record are not stated.
- AddOpenGraphChecks (Social.AddOpenGraphChecks): the description, value, recommendation, impact and category of each appended record are not stated.
- AddOgCoreChecks (Social.AddOgCoreChecks): the description, value, recommendation, impact and category of each appended record are not stated.
- AddOgExtraChecks (Social.AddOgExtraChecks): the description, value, recommendation, impact and category of each appended record are not stated.
- AddTwitterChecks (Social.AddTwitterChecks): the description, value, recommendation, impact and category of each appended record are not stated.
- AddIntegrationChecks (Social.AddIntegrationChecks): the description, value, recommendation, impact and category of each appended record are not stated.
- AddNapChecks (Local.AddNapChecks): the description, value, recommendation, impact and category of each appended record are not stated.
- AddContactTextChecks (Local.AddContactTextChecks): the description, value, recommendation, impact and category of each appended record are not stated.
- AddContactLinkChecks (Local.AddContactLinkChecks): the description, value, recommendation, impact and category of each appended record are not stated.
- AddSchemaChecks (Local.AddSchemaChecks): the description, value, recommendation, impact and category of each appended record are not stated.
- AddBusinessSchemaChecks (Local.AddBusinessSchemaChecks): the description, value, recommendation, impact and category of each appended record are not stated.
- AddPlaceSchemaChecks (Local.AddPlaceSchemaChecks): the description, value, recommendation, impact and category of each appended record are not stated.
- AddSignalChecks (Local.AddSignalChecks): the description, value, recommendation, impact and category of each appended record are not stated.
- AddMapChecks (Local.AddMapChecks): the description, value, recommendation, impact and category of each appended record are not stated.
- AddReputationChecks (Local.AddReputationChecks): the description, value, recommendation, impact and category of each appended record are not stated.
- AddParsingChecks (Geo.AddParsingChecks): the description, value, recommendation, impact and category of each appended record are not stated.
- AddSchemaChecks (Geo.AddSchemaChecks): the description, value, recommendation, impact and category of each appended record are not stated.
- AddEntityChecks (Geo.AddEntityChecks): the description, value, recommendation, impact and category of each appended record are not stated.
- AddSemanticChecks (Geo.AddSemanticChecks): the description, value, recommendation, impact and category of each appended record are not stated.
- AddLayoutChecks (Geo.AddLayoutChecks): the description, value, recommendation, impact and category of each appended record are not stated.
- AddAnnotationChecks (Geo.AddAnnotationChecks): the description, value, recommendation, impact and category of each appended record are not stated.
- AddInterpretabilityChecks (Geo.AddInterpretabilityChecks): the description, value, recommendation, impact and category of each appended record are not stated.
- AddAnswerChecks (Geo.AddAnswerChecks): the description, value, recommendation, impact and category of each appended record are not stated.
- AddStyleChecks (Geo.AddStyleChecks): the description, value, recommendation, impact and category of each appended record are not stated.
- AddSnippetChecks (Geo.AddSnippetChecks): the description, value, recommendation, impact and category of each appended record are not stated.
- AddHeadingChecks (Geo.AddHeadingChecks): the description, value, recommendation, impact and category of each appended record are not stated.
- AddPassageChecks (Geo.AddPassageChecks): the description, value, recommendation, impact and category of each appended record are not stated.
- AddTrustChecks (Geo.AddTrustChecks): the description, value, recommendation, impact and category of each appended record are not stated.
- AddFreshnessChecks (Geo.AddFreshnessChecks): the description, value, recommendation, impact and category of each appended record are not stated.
- AddOptimizationChecks (Geo.AddOptimizationChecks): the description, value, recommendation, impact and category of each appended record are not stated.
- Analyze (the `Analyze` method of each of the nine analyzer modules): the description, value, recommendation, impact and category of each record are not stated.
