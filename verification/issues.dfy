/**
 * The issue summary of `POST /api/ai-recommendations` (app.py:1140-1156): for
 * each category of a submitted audit, in dictionary order, the failing and
 * warning checks, at most five of them, under a header with the category's
 * score.
 */
module Issues {
  import opened Options
  import opened Text
  import opened Lists
  import opened Checks
  import Audit

  /** `c['status'] in ['fail', 'warning']` */
  predicate IsIssue(c: Check) {
    c.status == Fail || c.status == Warning
  }

  /** The issues a category lists: `cat_issues[:5]`. */
  const Limit: nat := 5

  /** `cat_issues[:5]` for `cat_issues = [c for c in checks if c['status'] in ['fail', 'warning']]` */
  function Listed(cs: seq<Check>): seq<Check> {
    var issues := Filter(cs, IsIssue);
    if |issues| <= Limit then issues else issues[..Limit]
  }

  /** `f"\n{cat_key.upper()} ({cat_data.get('score', 0):.0f}% score):"`, the score in tenths of a percent. */
  function Header(key: string, score: nat): string {
    "\n" + Upper(key) + " (" + FormatFixed(score, 10, 0) + "% score):"
  }

  /** `f"  - {issue['name']}: {issue['value']} (Recommendation: {issue['recommendation']})"` */
  function IssueLine(c: Check): string {
    "  - " + c.name + ": " + c.value + " (Recommendation: " + c.recommendation + ")"
  }

  /** One line per check. */
  function IssueLines(cs: seq<Check>): (lines: seq<string>)
    ensures |lines| == |cs|
    ensures forall i :: 0 <= i < |cs| ==> lines[i] == IssueLine(cs[i])
  {
    seq(|cs|, i requires 0 <= i < |cs| => IssueLine(cs[i]))
  }

  /** What one category adds to `issues_summary`: nothing without issues, else its header and listed issues. */
  function CategoryLines(key: string, r: CategoryResult): seq<string> {
    var listed := Listed(r.checks);
    if listed == [] then [] else [Header(key, r.score)] + IssueLines(listed)
  }

  /** `issues_summary` after the categories `ks`, in that order. */
  function SummaryLines(categories: map<string, CategoryResult>, ks: seq<string>): seq<string>
    requires forall k :: k in ks ==> k in categories
  {
    if ks == [] then []
    else
      var k := ks[|ks| - 1];
      SummaryLines(categories, ks[..|ks| - 1]) + CategoryLines(k, categories[k])
  }

  /**
   * The loop that builds `issues_summary` over the dictionary's keys `order`:
   * for each category with issues, the header and then its first five issues.
   */
  method CollectIssues(categories: map<string, CategoryResult>, order: seq<string>) returns (lines: seq<string>)
    requires forall k :: k in order ==> k in categories
    ensures lines == SummaryLines(categories, order)
  {
    lines := [];
    var i := 0;
    while i < |order|
      invariant 0 <= i <= |order|
      invariant lines == SummaryLines(categories, order[..i])
    {
      lines := AppendCategory(lines, order[i], categories[order[i]]);
      SummaryStep(categories, order, i);
      i := i + 1;
    }
    assert order[..|order|] == order;
  }

  /** The body of that loop for one category: nothing without issues, else its header and then its listed issues. */
  method AppendCategory(lines: seq<string>, key: string, data: CategoryResult) returns (after: seq<string>)
    ensures after == lines + CategoryLines(key, data)
  {
    var issues := Filter(data.checks, IsIssue);
    if issues != [] {
      var n := if |issues| <= Limit then |issues| else Limit;
      after := AppendIssueLines(lines + [Header(key, data.score)], issues, n);
      ListedLines(key, data, n);
    } else {
      assert Listed(data.checks) == [];
      after := lines;
    }
  }

  /** The inner loop: one line for each of the first `n` issues, in order. */
  method AppendIssueLines(lines: seq<string>, issues: seq<Check>, n: nat) returns (after: seq<string>)
    requires n <= |issues|
    ensures after == lines + IssueLines(issues[..n])
  {
    after := lines;
    var j := 0;
    while j < n
      invariant 0 <= j <= n
      invariant after == lines + IssueLines(issues[..j])
    {
      IssueLinesStep(issues, j);
      after := after + [IssueLine(issues[j])];
      j := j + 1;
    }
  }

  /** Appending the line of one more issue. */
  lemma IssueLinesStep(cs: seq<Check>, j: nat)
    requires j < |cs|
    ensures IssueLines(cs[..j + 1]) == IssueLines(cs[..j]) + [IssueLine(cs[j])]
  {
  }

  /** The inner loop's lines, once all `n` listed issues are appended, are the category's lines. */
  lemma ListedLines(key: string, r: CategoryResult, n: nat)
    requires Filter(r.checks, IsIssue) != []
    requires n == if |Filter(r.checks, IsIssue)| <= Limit then |Filter(r.checks, IsIssue)| else Limit
    ensures [Header(key, r.score)] + IssueLines(Filter(r.checks, IsIssue)[..n]) == CategoryLines(key, r)
  {
    assert Filter(r.checks, IsIssue)[..n] == Listed(r.checks);
  }

  /** One more key adds its category's lines. */
  lemma SummaryStep(categories: map<string, CategoryResult>, order: seq<string>, i: nat)
    requires i < |order| && forall k :: k in order ==> k in categories
    ensures SummaryLines(categories, order[..i + 1]) ==
      SummaryLines(categories, order[..i]) + CategoryLines(order[i], categories[order[i]])
  {
    assert order[..i + 1][..i] == order[..i];
  }

  /** The outcome of the request, up to the point where the language model is called. */
  datatype Outcome = Refused(code: nat, error: string) | IssuesText(text: string)

  /**
   * `get_ai_recommendations` up to the prompt: an empty or missing audit is
   * refused with 400, otherwise the issue lines are joined with newlines.
   */
  method RecommendationIssues(auditResults: Option<Audit.Report>) returns (outcome: Outcome)
    requires auditResults.Some? ==> Audit.OrderedKeys(auditResults.value)
    ensures auditResults.None? ==> outcome == Refused(400, "Audit results required")
    ensures auditResults.Some? ==>
      outcome == IssuesText(Join(SummaryLines(auditResults.value.categories, auditResults.value.order), "\n"))
  {
    if auditResults.None? {
      return Refused(400, "Audit results required");
    }
    var lines := CollectIssues(auditResults.value.categories, auditResults.value.order);
    outcome := IssuesText(Join(lines, "\n"));
  }

  // ----- Properties -----

  /** The issues before position `j` of `cs` are the first issues of `cs`. */
  lemma IssuesPrefix(cs: seq<Check>, j: nat)
    requires j <= |cs|
    ensures Filter(cs, IsIssue) == Filter(cs[..j], IsIssue) + Filter(cs[j..], IsIssue)
  {
    assert cs == cs[..j] + cs[j..];
    FilterAppend(cs[..j], cs[j..], IsIssue);
  }

  /**
   * A record is listed exactly when it fails or warns and fewer than five
   * earlier records of its category do; it is listed in record order, after
   * the earlier issues.
   */
  lemma ListedExactly(cs: seq<Check>, j: nat)
    requires j < |cs|
    ensures var before := |Filter(cs[..j], IsIssue)|;
      IsIssue(cs[j]) && before < Limit ==> before < |Listed(cs)| && Listed(cs)[before] == cs[j]
    ensures |Listed(cs)| <= Limit
    ensures forall c :: c in Listed(cs) ==> c in cs && IsIssue(c)
  {
    IssuesPrefix(cs, j);
    var rest := cs[j..];
    assert rest == [cs[j]] + rest[1..];
    assert rest[1..] == cs[j + 1..];
    var listed := Listed(cs);
    var issues := Filter(cs, IsIssue);
    forall c | c in listed
      ensures c in cs && IsIssue(c)
    {
      assert c in issues;
    }
  }

  /** A category whose checks all pass adds no line. */
  lemma PassingCategorySilent(key: string, r: CategoryResult)
    requires Consistent(r) && r.passed == r.total
    ensures CategoryLines(key, r) == []
  {
    SummaryScore(r.checks);
    FilterNone(r.checks, IsIssue);
  }

  /**
   * A category adds nothing exactly when none of its checks fails or warns;
   * otherwise its header comes first, followed by one line per listed issue,
   * at most six lines in all.
   */
  lemma CategoryLinesShape(key: string, r: CategoryResult)
    ensures CategoryLines(key, r) == [] <==> forall c :: c in r.checks ==> !IsIssue(c)
    ensures CategoryLines(key, r) != [] ==>
      && CategoryLines(key, r)[0] == Header(key, r.score)
      && |CategoryLines(key, r)| == 1 + |Listed(r.checks)|
    ensures |CategoryLines(key, r)| <= Limit + 1
  {
    FilterNone(r.checks, IsIssue);
  }

  /** The summary has at most six lines per category. */
  lemma {:induction false} SummaryLinesBound(categories: map<string, CategoryResult>, ks: seq<string>)
    requires forall k :: k in ks ==> k in categories
    ensures |SummaryLines(categories, ks)| <= (Limit + 1) * |ks|
  {
    if ks != [] {
      var k := ks[|ks| - 1];
      SummaryLinesBound(categories, ks[..|ks| - 1]);
      CategoryLinesShape(k, categories[k]);
    }
  }

  /** A summary of categories that all pass is empty. */
  lemma {:induction false} AllPassingSilent(categories: map<string, CategoryResult>, ks: seq<string>)
    requires forall k :: k in ks ==> k in categories
    requires forall k :: k in ks ==> Consistent(categories[k]) && categories[k].passed == categories[k].total
    ensures SummaryLines(categories, ks) == []
  {
    if ks != [] {
      var k := ks[|ks| - 1];
      AllPassingSilent(categories, ks[..|ks| - 1]);
      PassingCategorySilent(k, categories[k]);
    }
  }
}
