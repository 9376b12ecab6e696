/**
 * The audit endpoint (`analyze_url`, app.py:1066-1115): it normalizes the URL,
 * fetches the page, runs the requested category analyzers in request order and
 * aggregates their results into totals and an overall score.
 */
module Audit {
  import opened Options
  import opened Text
  import opened Checks
  import opened Page
  import Technical
  import OnPage
  import Content
  import Mobile
  import Performance
  import Security
  import Social
  import Local
  import Geo

  /** The nine entries of the `analyzers` table. */
  datatype Category =
    | TechnicalSeo | OnPageSeo | ContentSeo | MobileSeo | PerformanceSeo
    | SecuritySeo | SocialSeo | LocalSeo | GeoAeo

  /** The request key of each analyzer. */
  function Key(c: Category): string {
    match c
    case TechnicalSeo => "technical"
    case OnPageSeo => "onpage"
    case ContentSeo => "content"
    case MobileSeo => "mobile"
    case PerformanceSeo => "performance"
    case SecuritySeo => "security"
    case SocialSeo => "social"
    case LocalSeo => "local"
    case GeoAeo => "geo"
  }

  /** The display name the table pairs with each key. */
  function DisplayName(c: Category): string {
    match c
    case TechnicalSeo => "Technical SEO"
    case OnPageSeo => "On-Page SEO"
    case ContentSeo => "Content SEO"
    case MobileSeo => "Mobile SEO"
    case PerformanceSeo => "Performance"
    case SecuritySeo => "Security"
    case SocialSeo => "Social SEO"
    case LocalSeo => "Local SEO"
    case GeoAeo => "GEO/AEO"
  }

  /** `analyzers[key] if key in analyzers`: the table read backwards. */
  function Lookup(key: string): (c: Option<Category>)
    ensures c.Some? ==> Key(c.value) == key
  {
    if key == "technical" then Some(TechnicalSeo)
    else if key == "onpage" then Some(OnPageSeo)
    else if key == "content" then Some(ContentSeo)
    else if key == "mobile" then Some(MobileSeo)
    else if key == "performance" then Some(PerformanceSeo)
    else if key == "security" then Some(SecuritySeo)
    else if key == "social" then Some(SocialSeo)
    else if key == "local" then Some(LocalSeo)
    else if key == "geo" then Some(GeoAeo)
    else None
  }

  /** Every analyzer is found under its own key, so the keys are distinct. */
  lemma LookupKey(c: Category)
    ensures Lookup(Key(c)) == Some(c)
  {
    match c
    case TechnicalSeo =>
    case OnPageSeo =>
    case ContentSeo =>
    case MobileSeo =>
    case PerformanceSeo =>
    case SecuritySeo =>
    case SocialSeo =>
    case LocalSeo =>
    case GeoAeo =>
  }

  /** The categories a request without a `categories` field runs. */
  const DefaultKeys: seq<string> :=
    ["technical", "onpage", "content", "mobile", "performance", "security", "social", "local", "geo"]

  /** The nine analyzers, in the order of the `analyzers` table. */
  const AllCategories: seq<Category> :=
    [TechnicalSeo, OnPageSeo, ContentSeo, MobileSeo, PerformanceSeo, SecuritySeo, SocialSeo, LocalSeo, GeoAeo]

  /** How many records each analyzer emits. */
  function CheckCount(c: Category): (n: nat)
    ensures n > 0
  {
    match c
    case TechnicalSeo => Technical.Count
    case OnPageSeo => OnPage.Count
    case ContentSeo => Content.Count
    case MobileSeo => Mobile.Count
    case PerformanceSeo => Performance.Count
    case SecuritySeo => Security.Count
    case SocialSeo => Social.Count
    case LocalSeo => Local.Count
    case GeoAeo => Geo.Count
  }

  /** What the nine analyzers conclude about one page: a row of verdicts per category. */
  datatype VerdictTable = VerdictTable(
    technical: seq<Verdict>, onpage: seq<Verdict>, content: seq<Verdict>,
    mobile: seq<Verdict>, performance: seq<Verdict>, security: seq<Verdict>,
    social: seq<Verdict>, local: seq<Verdict>, geo: seq<Verdict>)

  /** The row of the analyzer `c`. */
  function Row(table: VerdictTable, c: Category): seq<Verdict> {
    match c
    case TechnicalSeo => table.technical
    case OnPageSeo => table.onpage
    case ContentSeo => table.content
    case MobileSeo => table.mobile
    case PerformanceSeo => table.performance
    case SecuritySeo => table.security
    case SocialSeo => table.social
    case LocalSeo => table.local
    case GeoAeo => table.geo
  }

  /** The verdicts every analyzer reaches on the page. */
  function TableOf(t: Target, p: Page): VerdictTable {
    VerdictTable(
      Technical.Verdicts(t, p), OnPage.Verdicts(p), Content.Verdicts(t, p),
      Mobile.Verdicts(p), Performance.Verdicts(p), Security.Verdicts(t, p),
      Social.Verdicts(p), Local.Verdicts(p), Geo.Verdicts(t, p))
  }

  /**
   * `table` holds, for each category, the verdicts its analyzer reaches on the
   * page. The aggregation is stated over such a table, so that its proofs never
   * look inside the nine analyzers.
   */
  ghost predicate Tabulates(table: VerdictTable, t: Target, p: Page) {
    && Technical.Yields(table.technical, t, p)
    && OnPage.Yields(table.onpage, p)
    && Content.Yields(table.content, t, p)
    && Mobile.Yields(table.mobile, p)
    && Performance.Yields(table.performance, p)
    && Security.Yields(table.security, t, p)
    && Social.Yields(table.social, p)
    && Local.Yields(table.local, p)
    && Geo.Yields(table.geo, t, p)
  }

  /** The analyzers' own verdicts tabulate the page. */
  lemma TableOfTabulates(t: Target, p: Page)
    ensures Tabulates(TableOf(t, p), t, p)
  {
    Technical.YieldsVerdicts(t, p);
    OnPage.YieldsVerdicts(p);
    Content.YieldsVerdicts(t, p);
    Mobile.YieldsVerdicts(p);
    Performance.YieldsVerdicts(p);
    Security.YieldsVerdicts(t, p);
    Social.YieldsVerdicts(p);
    Local.YieldsVerdicts(p);
    Geo.YieldsVerdicts(t, p);
  }

  /** Two tables of the same page are equal. */
  lemma TabulatesUnique(a: VerdictTable, b: VerdictTable, t: Target, p: Page)
    requires Tabulates(a, t, p) && Tabulates(b, t, p)
    ensures a == b
  {
    Technical.YieldsUnique(a.technical, b.technical, t, p);
    OnPage.YieldsUnique(a.onpage, b.onpage, p);
    Content.YieldsUnique(a.content, b.content, t, p);
    Mobile.YieldsUnique(a.mobile, b.mobile, p);
    Performance.YieldsUnique(a.performance, b.performance, p);
    Security.YieldsUnique(a.security, b.security, t, p);
    Social.YieldsUnique(a.social, b.social, p);
    Local.YieldsUnique(a.local, b.local, p);
    Geo.YieldsUnique(a.geo, b.geo, t, p);
  }

  /** Every row has as many verdicts as its analyzer has checks. */
  ghost predicate Sized(table: VerdictTable) {
    forall c :: |Row(table, c)| == CheckCount(c)
  }

  /** Each analyzer emits `CheckCount` records. */
  lemma TabulatesSized(table: VerdictTable, t: Target, p: Page)
    requires Tabulates(table, t, p)
    ensures Sized(table)
  {
    Technical.YieldsCount(table.technical, t, p);
    OnPage.YieldsCount(table.onpage, p);
    Content.YieldsCount(table.content, t, p);
    Mobile.YieldsCount(table.mobile, p);
    Performance.YieldsCount(table.performance, p);
    Security.YieldsCount(table.security, t, p);
    Social.YieldsCount(table.social, p);
    Local.YieldsCount(table.local, p);
    Geo.YieldsCount(table.geo, t, p);
  }

  /** An analyzer's score as the table records it, in tenths of a percent. */
  function Score(table: VerdictTable, c: Category): nat {
    PercentTenths(PassCount(Row(table, c)), CheckCount(c))
  }

  /**
   * `analyzer_func(url, soup, response, load_time)` for the analyzer the table
   * names: its result carries the analyzer's verdicts, total, passed count and score.
   */
  method RunAnalyzer(c: Category, t: Target, p: Page, ghost table: VerdictTable) returns (r: CategoryResult)
    requires Tabulates(table, t, p)
    ensures Delivers(r, c, table)
  {
    match c {
      case TechnicalSeo =>
        r := Technical.Analyze(t, p);
        Technical.YieldsUnique(Project(r.checks), table.technical, t, p);
      case OnPageSeo =>
        r := OnPage.Analyze(p);
        OnPage.YieldsUnique(Project(r.checks), table.onpage, p);
      case ContentSeo =>
        r := Content.Analyze(t, p);
        Content.YieldsUnique(Project(r.checks), table.content, t, p);
      case MobileSeo =>
        r := Mobile.Analyze(p);
        Mobile.YieldsUnique(Project(r.checks), table.mobile, p);
      case PerformanceSeo =>
        r := Performance.Analyze(p);
        Performance.YieldsUnique(Project(r.checks), table.performance, p);
      case SecuritySeo =>
        r := Security.Analyze(t, p);
        Security.YieldsUnique(Project(r.checks), table.security, t, p);
      case SocialSeo =>
        r := Social.Analyze(p);
        Social.YieldsUnique(Project(r.checks), table.social, p);
      case LocalSeo =>
        r := Local.Analyze(p);
        Local.YieldsUnique(Project(r.checks), table.local, p);
      case GeoAeo =>
        r := Geo.Analyze(t, p);
        Geo.YieldsUnique(Project(r.checks), table.geo, t, p);
    }
  }

  // ----- What a request produces -----

  /** `url if url.startswith('http') else 'https://' + url` */
  function Normalize(url: string): string {
    if StartsWith(url, "http") then url else "https://" + url
  }

  /** The outcome of fetching the normalized URL: the page, or the request error's message. */
  datatype Fetch = Fetched(page: Page) | FetchFailed(message: string)

  /** The success body: `categories` is a dictionary, so `order` records its insertion order. */
  datatype Report = Report(
    url: string,
    categories: map<string, CategoryResult>,
    order: seq<string>,
    totalChecks: nat,
    totalPassed: nat,
    overallScore: nat)  // tenths of a percent

  datatype Response = Success(report: Report) | Failure(code: nat, error: string, url: Option<string>)

  /** The analyzers the loop runs, in request order, a repeated key once per occurrence. */
  function Runs(keys: seq<string>): seq<Category> {
    if keys == [] then []
    else
      var c := Lookup(keys[|keys| - 1]);
      Runs(keys[..|keys| - 1]) + (if c.Some? then [c.value] else [])
  }

  /** The keys of the `categories` dictionary, in insertion order: each known key at its first request. */
  function Stored(keys: seq<string>): seq<string> {
    if keys == [] then []
    else
      var prior, k := Stored(keys[..|keys| - 1]), keys[|keys| - 1];
      if Lookup(k).Some? && k !in prior then prior + [k] else prior
  }

  /** The checks the runs `cs` emit together. */
  function ChecksTotal(cs: seq<Category>): nat {
    if cs == [] then 0 else ChecksTotal(cs[..|cs| - 1]) + CheckCount(cs[|cs| - 1])
  }

  /** The checks of the runs `cs` that pass, by the table. */
  function PassedTotal(cs: seq<Category>, table: VerdictTable): nat {
    if cs == [] then 0 else PassedTotal(cs[..|cs| - 1], table) + PassCount(Row(table, cs[|cs| - 1]))
  }

  /** The sum of the scores of the analyzers named by `ks` (an unknown key adds nothing). */
  function ScoreTotal(ks: seq<string>, table: VerdictTable): nat {
    if ks == [] then 0
    else
      var c := Lookup(ks[|ks| - 1]);
      ScoreTotal(ks[..|ks| - 1], table) + (if c.Some? then Score(table, c.value) else 0)
  }

  /** `round(sum(scores) / len(scores), 1) if categories else 0`, in tenths. */
  function OverallScore(keys: seq<string>, table: VerdictTable): nat {
    var ks := Stored(keys);
    if ks == [] then 0 else RoundHalfEven(ScoreTotal(ks, table), |ks|)
  }

  /** Each stored result is a consistent result carrying the row of its key. */
  ghost predicate Agrees(categories: map<string, CategoryResult>, table: VerdictTable) {
    forall k :: k in categories ==>
      Lookup(k).Some? && Consistent(categories[k]) && ValuesBounded(categories[k].checks)
      && Project(categories[k].checks) == Row(table, Lookup(k).value)
      && categories[k].score == Score(table, Lookup(k).value)
  }

  /** `sum(cat['score'] for cat in categories.values())`, walking the keys in `ks`. */
  function StoredScores(categories: map<string, CategoryResult>, ks: seq<string>): nat
    requires forall k :: k in ks ==> k in categories
  {
    if ks == [] then 0 else StoredScores(categories, ks[..|ks| - 1]) + categories[ks[|ks| - 1]].score
  }

  /**
   * What the success body says about a request for `keys`: the dictionary holds
   * the known keys in first-request order, each with its analyzer's result; the
   * totals add every run; the overall score is the mean of the stored scores.
   */
  ghost predicate Summarizes(report: Report, url: string, keys: seq<string>, table: VerdictTable) {
    && report.url == url
    && report.order == Stored(keys)
    && (forall k :: k in report.categories <==> k in Stored(keys))
    && Agrees(report.categories, table)
    && report.totalChecks == ChecksTotal(Runs(keys))
    && report.totalPassed == PassedTotal(Runs(keys), table)
    && report.overallScore == OverallScore(keys, table)
  }

  /** `order` lists each key of `categories` exactly once, as iterating a dictionary does. */
  predicate OrderedKeys(report: Report) {
    && (forall k :: k in report.order ==> k in report.categories)
    && (forall k :: k in report.categories ==> k in report.order)
    && (forall i, j :: 0 <= i < j < |report.order| ==> report.order[i] != report.order[j])
  }

  /** A success body built by the endpoint lists each of its categories once. */
  lemma SummarizesOrdered(report: Report, url: string, keys: seq<string>, table: VerdictTable)
    requires Summarizes(report, url, keys, table)
    ensures OrderedKeys(report)
  {
    StoredKeys(keys);
  }

  // ----- The endpoint -----

  /** What the analyzer `c` returns, as `RunAnalyzer` promises it. */
  ghost predicate Delivers(r: CategoryResult, c: Category, table: VerdictTable) {
    && Consistent(r) && ValuesBounded(r.checks) && Project(r.checks) == Row(table, c)
    && r.total == CheckCount(c) && r.passed == PassCount(Row(table, c)) && r.score == Score(table, c)
  }

  /** Key-sequence equality under a name of its own: the guard of `Progress`. */
  ghost predicate SameKeys(d: seq<string>, done: seq<string>) {
    d == done
  }

  /**
   * The loop invariant of `Aggregate`: `Reached`, stated for every key
   * sequence that is `done`. The guard keeps the verifier from expanding the
   * invariant in the loop's own proof, which also holds the nine analyzers;
   * `Unseal` and `Seal` convert between the two forms.
   */
  ghost predicate Progress(done: seq<string>, categories: map<string, CategoryResult>, order: seq<string>,
                           totalChecks: nat, totalPassed: nat, table: VerdictTable) {
    forall d {:trigger SameKeys(d, done)} :: SameKeys(d, done) ==> Reached(d, categories, order, totalChecks, totalPassed, table)
  }

  /**
   * The state of the aggregation loop once the keys `done` are processed: the
   * dictionary holds the stored keys in their order, each with its analyzer's
   * result, and the totals add every run so far.
   */
  ghost predicate Reached(done: seq<string>, categories: map<string, CategoryResult>, order: seq<string>,
                           totalChecks: nat, totalPassed: nat, table: VerdictTable) {
    && order == Stored(done)
    && (forall k :: k in categories <==> k in order)
    && Agrees(categories, table)
    && totalChecks == ChecksTotal(Runs(done))
    && totalPassed == PassedTotal(Runs(done), table)
  }

  /** `Reached` gives the loop invariant. */
  lemma Seal(done: seq<string>, categories: map<string, CategoryResult>, order: seq<string>,
             totalChecks: nat, totalPassed: nat, table: VerdictTable)
    requires Reached(done, categories, order, totalChecks, totalPassed, table)
    ensures Progress(done, categories, order, totalChecks, totalPassed, table)
  {
  }

  /** The loop invariant gives `Reached`. */
  lemma Unseal(done: seq<string>, categories: map<string, CategoryResult>, order: seq<string>,
               totalChecks: nat, totalPassed: nat, table: VerdictTable)
    requires Progress(done, categories, order, totalChecks, totalPassed, table)
    ensures Reached(done, categories, order, totalChecks, totalPassed, table)
  {
    assert SameKeys(done, done);
  }

  /** A known key stores its analyzer's result and adds its counts. */
  lemma Record(done: seq<string>, key: string, categories: map<string, CategoryResult>, order: seq<string>,
               totalChecks: nat, totalPassed: nat, table: VerdictTable, result: CategoryResult)
    requires Progress(done, categories, order, totalChecks, totalPassed, table)
    requires Lookup(key).Some? && Delivers(result, Lookup(key).value, table)
    ensures Progress(done + [key], categories[key := result], if key in categories then order else order + [key],
                     totalChecks + result.total, totalPassed + result.passed, table)
  {
    Unseal(done, categories, order, totalChecks, totalPassed, table);
    RecordReached(done, key, categories, order, totalChecks, totalPassed, table, result);
    Seal(done + [key], categories[key := result], if key in categories then order else order + [key],
         totalChecks + result.total, totalPassed + result.passed, table);
  }

  /** `Record`, on the expanded state. */
  lemma RecordReached(done: seq<string>, key: string, categories: map<string, CategoryResult>, order: seq<string>,
               totalChecks: nat, totalPassed: nat, table: VerdictTable, result: CategoryResult)
    requires Reached(done, categories, order, totalChecks, totalPassed, table)
    requires Lookup(key).Some? && Delivers(result, Lookup(key).value, table)
    ensures Reached(done + [key], categories[key := result], if key in categories then order else order + [key],
                     totalChecks + result.total, totalPassed + result.passed, table)
  {
    RecordKeys(done, key, categories, order, result);
    RecordTotals(done, key, totalChecks, totalPassed, table, result.total, result.passed);
    AgreesStore(categories, key, result, table);
  }

  /** A known key joins the stored keys at its first request, and the dictionary's keys with it. */
  lemma RecordKeys(done: seq<string>, key: string, categories: map<string, CategoryResult>, order: seq<string>,
                   result: CategoryResult)
    requires order == Stored(done) && (forall k :: k in categories <==> k in order)
    requires Lookup(key).Some?
    ensures var order' := if key in categories then order else order + [key];
      && order' == Stored(done + [key])
      && (forall k :: k in categories[key := result] <==> k in order')
  {
    StepKeys(done, key);
  }

  /** A known key adds its analyzer's checks and passes to the totals. */
  lemma RecordTotals(done: seq<string>, key: string, totalChecks: nat, totalPassed: nat, table: VerdictTable,
                     total: nat, passed: nat)
    requires totalChecks == ChecksTotal(Runs(done)) && totalPassed == PassedTotal(Runs(done), table)
    requires Lookup(key).Some? && total == CheckCount(Lookup(key).value)
    requires passed == PassCount(Row(table, Lookup(key).value))
    ensures totalChecks + total == ChecksTotal(Runs(done + [key]))
    ensures totalPassed + passed == PassedTotal(Runs(done + [key]), table)
  {
    StepTotals(done, key, table);
  }

  /** An unknown key changes nothing. */
  lemma Skip(done: seq<string>, key: string, categories: map<string, CategoryResult>, order: seq<string>,
             totalChecks: nat, totalPassed: nat, table: VerdictTable)
    requires Progress(done, categories, order, totalChecks, totalPassed, table)
    requires Lookup(key).None?
    ensures Progress(done + [key], categories, order, totalChecks, totalPassed, table)
  {
    Unseal(done, categories, order, totalChecks, totalPassed, table);
    StepKeys(done, key);
    StepTotals(done, key, table);
    Seal(done + [key], categories, order, totalChecks, totalPassed, table);
  }

  /** Storing an analyzer's result under its key keeps every entry in agreement. */
  lemma AgreesStore(categories: map<string, CategoryResult>, key: string, result: CategoryResult, table: VerdictTable)
    requires Agrees(categories, table)
    requires Lookup(key).Some? && Delivers(result, Lookup(key).value, table)
    ensures Agrees(categories[key := result], table)
  {
  }

  /** After the last key, the state and the mean of the stored scores make the success body. */
  lemma Conclude(url: string, keys: seq<string>, categories: map<string, CategoryResult>, order: seq<string>,
                 totalChecks: nat, totalPassed: nat, table: VerdictTable)
    requires Progress(keys, categories, order, totalChecks, totalPassed, table)
    ensures forall k :: k in order ==> k in categories
    ensures var overall := if order == [] then 0 else RoundHalfEven(StoredScores(categories, order), |order|);
      Summarizes(Report(url, categories, order, totalChecks, totalPassed, overall), url, keys, table)
  {
    Unseal(keys, categories, order, totalChecks, totalPassed, table);
    ConcludeScore(keys, categories, order, table);
  }

  /** The mean of the stored scores is the overall score of the requested keys. */
  lemma ConcludeScore(keys: seq<string>, categories: map<string, CategoryResult>, order: seq<string>,
                      table: VerdictTable)
    requires order == Stored(keys) && (forall k :: k in categories <==> k in order)
    requires Agrees(categories, table)
    ensures forall k :: k in order ==> k in categories
    ensures (if order == [] then 0 else RoundHalfEven(StoredScores(categories, order), |order|)) == OverallScore(keys, table)
  {
    if order != [] {
      StoredScoresAgree(categories, order, table);
    }
  }

  /**
   * The aggregation loop over the requested keys: each known key runs its
   * analyzer, stores the result under the key and adds its total and passed
   * counts; unknown keys are skipped. The overall score is the mean of the
   * stored scores.
   */
  method Aggregate(url: string, keys: seq<string>, t: Target, p: Page, ghost table: VerdictTable)
    returns (report: Report)
    requires Tabulates(table, t, p)
    ensures Summarizes(report, url, keys, table)
  {
    var categories: map<string, CategoryResult> := map[];
    var order: seq<string> := [];
    var totalChecks: nat, totalPassed: nat := 0, 0;
    var i := 0;
    while i < |keys|
      invariant 0 <= i <= |keys|
      invariant Progress(keys[..i], categories, order, totalChecks, totalPassed, table)
    {
      var key := keys[i];
      var c := Lookup(key);
      if c.Some? {
        var result := RunAnalyzer(c.value, t, p, table);
        Record(keys[..i], key, categories, order, totalChecks, totalPassed, table, result);
        if key !in categories {
          order := order + [key];
        }
        categories := categories[key := result];
        totalChecks := totalChecks + result.total;
        totalPassed := totalPassed + result.passed;
      } else {
        Skip(keys[..i], key, categories, order, totalChecks, totalPassed, table);
      }
      assert keys[..i + 1] == keys[..i] + [key];
      i := i + 1;
    }
    assert keys[..|keys|] == keys;
    Conclude(url, keys, categories, order, totalChecks, totalPassed, table);
    var overall := 0;
    if order != [] {
      overall := RoundHalfEven(StoredScores(categories, order), |order|);
    }
    report := Report(url, categories, order, totalChecks, totalPassed, overall);
  }

  /** Some table tabulates every page. */
  lemma TableExists(t: Target, p: Page)
    ensures exists table :: Tabulates(table, t, p)
  {
    TableOfTabulates(t, p);
  }

  /**
   * `POST /api/analyze`: a missing URL is refused, a URL without a scheme gets
   * `https://`, a failed fetch is reported with the normalized URL, and a
   * fetched page is summarized over the requested (by default all) categories
   * by the table of that page (there is exactly one, `TableOfTabulates`).
   * Every analyzer audits the normalized URL as `urlparse` splits it
   * (`split`, which keeps the URL it is given).
   */
  method AnalyzeUrl(url: string, requested: Option<seq<string>>, fetch: string -> Fetch,
                    split: string -> Target) returns (response: Response)
    requires forall u :: split(u).url == u
    ensures url == "" ==> response == Failure(400, "URL is required", None)
    ensures url != "" && fetch(Normalize(url)).FetchFailed? ==>
      response == Failure(400, "Failed to fetch URL: " + fetch(Normalize(url)).message, Some(Normalize(url)))
    ensures url != "" && fetch(Normalize(url)).Fetched? ==>
      var f := fetch(Normalize(url));
      && response.Success?
      && forall table :: Tabulates(table, split(Normalize(url)), f.page) ==>
           Summarizes(response.report, Normalize(url), requested.GetOr(DefaultKeys), table)
  {
    if url == "" {
      return Failure(400, "URL is required", None);
    }
    var target := Normalize(url);
    var fetched := fetch(target);
    if fetched.FetchFailed? {
      return Failure(400, "Failed to fetch URL: " + fetched.message, Some(target));
    }
    var parsed := split(target);
    TableExists(parsed, fetched.page);
    ghost var table :| Tabulates(table, parsed, fetched.page);
    var keys := requested.GetOr(DefaultKeys);
    var report := Aggregate(target, keys, parsed, fetched.page, table);
    response := Success(report);
    forall other | Tabulates(other, parsed, fetched.page)
      ensures Summarizes(report, target, keys, other)
    {
      TabulatesUnique(table, other, parsed, fetched.page);
    }
  }

  // ----- Properties -----

  /** Summing the stored scores is summing the analyzers' scores. */
  lemma {:induction false} StoredScoresAgree(categories: map<string, CategoryResult>, ks: seq<string>,
                                              table: VerdictTable)
    requires Agrees(categories, table)
    requires forall k :: k in ks ==> k in categories
    ensures StoredScores(categories, ks) == ScoreTotal(ks, table)
  {
    if ks != [] {
      var k := ks[|ks| - 1];
      assert k in categories;
      StoredScoresAgree(categories, ks[..|ks| - 1], table);
    }
  }

  /** One more requested key extends the runs and the stored keys by at most that key. */
  lemma StepKeys(keys: seq<string>, k: string)
    ensures var c := Lookup(k);
      && Runs(keys + [k]) == Runs(keys) + (if c.Some? then [c.value] else [])
      && Stored(keys + [k]) == (if c.Some? && k !in Stored(keys) then Stored(keys) + [k] else Stored(keys))
  {
    assert (keys + [k])[..|keys|] == keys;
  }

  /** One more requested key adds its analyzer's checks and passes to the totals, if it names one. */
  lemma StepTotals(keys: seq<string>, k: string, table: VerdictTable)
    ensures var c := Lookup(k);
      && ChecksTotal(Runs(keys + [k])) == ChecksTotal(Runs(keys)) + (if c.Some? then CheckCount(c.value) else 0)
      && PassedTotal(Runs(keys + [k]), table) == PassedTotal(Runs(keys), table) + (if c.Some? then PassCount(Row(table, c.value)) else 0)
  {
    StepKeys(keys, k);
    var c := Lookup(k);
    if c.Some? {
      ChecksTotalAppend(Runs(keys), c.value);
      PassedTotalAppend(Runs(keys), c.value, table);
    } else {
      assert Runs(keys + [k]) == Runs(keys);
    }
  }

  /**
   * The stored keys are the known requested keys, each once: unknown keys
   * are skipped and a repeated key keeps a single entry.
   */
  lemma {:induction false} StoredKeys(keys: seq<string>)
    ensures forall k :: k in Stored(keys) <==> k in keys && Lookup(k).Some?
    ensures forall i, j :: 0 <= i < j < |Stored(keys)| ==> Stored(keys)[i] != Stored(keys)[j]
  {
    if keys != [] {
      var init := keys[..|keys| - 1];
      StoredKeys(init);
      assert keys == init + [keys[|keys| - 1]];
    }
  }

  /** Known keys requested once each are stored as requested, and run in that order. */
  lemma {:induction false} KnownDistinct(keys: seq<string>)
    requires forall i :: 0 <= i < |keys| ==> Lookup(keys[i]).Some?
    requires forall i, j :: 0 <= i < j < |keys| ==> keys[i] != keys[j]
    ensures Stored(keys) == keys
    ensures |Runs(keys)| == |keys|
    ensures forall i :: 0 <= i < |keys| ==> Runs(keys)[i] == Lookup(keys[i]).value
  {
    if keys != [] {
      var init, last := keys[..|keys| - 1], keys[|keys| - 1];
      assert keys == init + [last];
      forall i | 0 <= i < |init|
        ensures Lookup(init[i]).Some? && init[i] != last
      {
        assert init[i] == keys[i];
      }
      forall i, j | 0 <= i < j < |init|
        ensures init[i] != init[j]
      {
        assert init[i] == keys[i] && init[j] == keys[j];
      }
      KnownDistinct(init);
      StepKeys(init, last);
      forall i | 0 <= i < |keys|
        ensures Runs(keys)[i] == Lookup(keys[i]).value
      {
        if i < |init| {
          assert keys[i] == init[i];
        }
      }
    }
  }

  /** A key the table does not know changes nothing. */
  lemma UnknownKeySkipped(keys: seq<string>, k: string, table: VerdictTable)
    requires Lookup(k).None?
    ensures Stored(keys + [k]) == Stored(keys)
    ensures Runs(keys + [k]) == Runs(keys)
    ensures OverallScore(keys + [k], table) == OverallScore(keys, table)
  {
    StepKeys(keys, k);
  }

  /**
   * A repeated known key runs its analyzer again: the totals count it a second
   * time, while the categories (and so the overall score) are unchanged.
   */
  lemma RepeatedKeyCountedTwice(keys: seq<string>, k: string, table: VerdictTable)
    requires k in keys && Lookup(k).Some?
    ensures Stored(keys + [k]) == Stored(keys)
    ensures OverallScore(keys + [k], table) == OverallScore(keys, table)
    ensures ChecksTotal(Runs(keys + [k])) == ChecksTotal(Runs(keys)) + CheckCount(Lookup(k).value)
    ensures PassedTotal(Runs(keys + [k]), table) == PassedTotal(Runs(keys), table) + PassCount(Row(table, Lookup(k).value))
  {
    StoredKeys(keys);
    StepTotals(keys, k, table);
  }

  /** However often the keys repeat, no more checks pass than were run. */
  lemma {:induction false} PassedWithinTotal(cs: seq<Category>, table: VerdictTable)
    requires Sized(table)
    ensures PassedTotal(cs, table) <= ChecksTotal(cs)
  {
    if cs != [] {
      PassedWithinTotal(cs[..|cs| - 1], table);
      PassCountBounds(Row(table, cs[|cs| - 1]));
    }
  }

  /** Each score is at most 100%, so the scores of `ks` sum to at most `1000 * |ks|` tenths. */
  lemma {:induction false} ScoreTotalBound(ks: seq<string>, table: VerdictTable)
    requires Sized(table)
    ensures ScoreTotal(ks, table) <= 1000 * |ks|
  {
    if ks != [] {
      ScoreTotalBound(ks[..|ks| - 1], table);
      var c := Lookup(ks[|ks| - 1]);
      if c.Some? {
        PassCountBounds(Row(table, c.value));
        PercentTenthsBounds(PassCount(Row(table, c.value)), CheckCount(c.value));
      }
    }
  }

  /** The overall score is at most 100%, and 0 when no known category was requested. */
  lemma OverallScoreBound(keys: seq<string>, table: VerdictTable)
    requires Sized(table)
    ensures OverallScore(keys, table) <= 1000
    ensures (forall k :: k in keys ==> Lookup(k).None?) ==> OverallScore(keys, table) == 0
  {
    StoredKeys(keys);
    var ks := Stored(keys);
    if ks != [] {
      ScoreTotalBound(ks, table);
      RoundHalfEvenAtMost(ScoreTotal(ks, table), |ks|, 1000);
      assert ks[0] in ks;
    }
  }

  /** The checks of `cs + [c]` are those of `cs` and then those of `c`. */
  lemma ChecksTotalAppend(cs: seq<Category>, c: Category)
    ensures ChecksTotal(cs + [c]) == ChecksTotal(cs) + CheckCount(c)
  {
    assert (cs + [c])[..|cs|] == cs;
  }

  /** The passes of `cs + [c]` are those of `cs` and then those of `c`. */
  lemma PassedTotalAppend(cs: seq<Category>, c: Category, table: VerdictTable)
    ensures PassedTotal(cs + [c], table) == PassedTotal(cs, table) + PassCount(Row(table, c))
  {
    assert (cs + [c])[..|cs|] == cs;
  }

  /** A request without `categories` stores all nine keys and runs all nine analyzers once each, in table order. */
  lemma DefaultRequestRunsAll()
    ensures Stored(DefaultKeys) == DefaultKeys
    ensures Runs(DefaultKeys) == AllCategories
  {
    assert DefaultKeys == [Key(TechnicalSeo), Key(OnPageSeo), Key(ContentSeo), Key(MobileSeo), Key(PerformanceSeo),
                           Key(SecuritySeo), Key(SocialSeo), Key(LocalSeo), Key(GeoAeo)];
    forall i | 0 <= i < |DefaultKeys|
      ensures Lookup(DefaultKeys[i]) == Some(AllCategories[i])
    {
      LookupKey(AllCategories[i]);
    }
    KnownDistinct(DefaultKeys);
  }

  /** The nine analyzers emit 171 checks in all. */
  lemma AllChecksTotal()
    ensures ChecksTotal(AllCategories) == 171
  {
    var c0 := [TechnicalSeo];
    ChecksTotalAppend([], TechnicalSeo);
    assert [] + [TechnicalSeo] == c0;
    var c1 := c0 + [OnPageSeo];
    ChecksTotalAppend(c0, OnPageSeo);
    var c2 := c1 + [ContentSeo];
    ChecksTotalAppend(c1, ContentSeo);
    var c3 := c2 + [MobileSeo];
    ChecksTotalAppend(c2, MobileSeo);
    var c4 := c3 + [PerformanceSeo];
    ChecksTotalAppend(c3, PerformanceSeo);
    var c5 := c4 + [SecuritySeo];
    ChecksTotalAppend(c4, SecuritySeo);
    var c6 := c5 + [SocialSeo];
    ChecksTotalAppend(c5, SocialSeo);
    var c7 := c6 + [LocalSeo];
    ChecksTotalAppend(c6, LocalSeo);
    var c8 := c7 + [GeoAeo];
    ChecksTotalAppend(c7, GeoAeo);
    assert c8 == AllCategories;
  }

  /** Normalizing twice is normalizing once, and the result always starts with `http`. */
  lemma NormalizeIdempotent(url: string)
    ensures StartsWith(Normalize(url), "http")
    ensures Normalize(Normalize(url)) == Normalize(url)
  {
    if !StartsWith(url, "http") {
      assert ("https://" + url)[..4] == "http";
    }
  }
}
