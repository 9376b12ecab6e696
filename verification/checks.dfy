/**
 * The check record, the list that one analyzer appends its records to, and
 * the pass/total scoring of a finished list.
 */
module Checks {
  import opened Options
  import opened Text

  datatype Status = Pass | Fail | Warning | Info

  datatype Impact = Critical | High | Medium | Low

  /** `'pass' if cond else otherwise` */
  function PassIf(cond: bool, otherwise: Status): Status {
    if cond then Pass else otherwise
  }

  /** One evaluated check. `value` is the observed evidence, already cut to `ValueLimit`. */
  datatype Check = Check(
    name: string,
    status: Status,
    description: string,
    value: string,
    recommendation: string,
    impact: Impact,
    category: string)

  /** Longest `value` a record keeps. */
  const ValueLimit: nat := 200

  /** Category label of a record whose caller gave none. */
  const DefaultCategory := "General"

  /**
   * The record `add_check` appends: the value cut to its first 200
   * characters, and the category label `cat or 'General'`.
   */
  function MakeCheck(name: string, status: Status, desc: string, value: string,
                     rec: string, impact: Impact, cat: Option<string>): (c: Check)
    ensures c.name == name && c.status == status && c.description == desc
    ensures c.recommendation == rec && c.impact == impact
    ensures |c.value| <= ValueLimit && c.value <= value
    ensures |value| <= ValueLimit ==> c.value == value
    ensures |value| > ValueLimit ==> |c.value| == ValueLimit
    ensures cat.Some? && cat.value != "" ==> c.category == cat.value
    ensures cat.None? || cat.value == "" ==> c.category == DefaultCategory
  {
    Check(name, status, desc, Take(value, ValueLimit), rec, impact,
          if cat.Some? && cat.value != "" then cat.value else DefaultCategory)
  }

  /** The `checks` list an analyzer builds, which `add_check` appends to in place. */
  class CheckList {
    var checks: seq<Check>

    constructor ()
      ensures checks == []
    {
      checks := [];
    }

    /** `add_check(checks, name, status, desc, value, rec, impact, cat)` */
    method AddCheck(name: string, status: Status, desc: string, value: string,
                    rec: string, impact: Impact, cat: Option<string>)
      modifies this
      ensures checks == old(checks) + [MakeCheck(name, status, desc, value, rec, impact, cat)]
      ensures Project(checks) == Project(old(checks)) + [Verdict(name, status)]
      ensures ValuesBounded(old(checks)) ==> ValuesBounded(checks)
      ensures old(checks) <= checks
    {
      ProjectAppend(checks, MakeCheck(name, status, desc, value, rec, impact, cat));
      checks := checks + [MakeCheck(name, status, desc, value, rec, impact, cat)];
    }
  }

  /** The scoring-relevant part of a record: which check, and its outcome. */
  datatype Verdict = Verdict(name: string, status: Status)

  function Project(cs: seq<Check>): (vs: seq<Verdict>)
    ensures |vs| == |cs|
    ensures forall i :: 0 <= i < |cs| ==> vs[i] == Verdict(cs[i].name, cs[i].status)
  {
    seq(|cs|, i requires 0 <= i < |cs| => Verdict(cs[i].name, cs[i].status))
  }

  lemma ProjectAppend(cs: seq<Check>, c: Check)
    ensures Project(cs + [c]) == Project(cs) + [Verdict(c.name, c.status)]
  {
  }

  /** `sum(1 for c in checks if c['status'] == 'pass')` */
  function PassCount(vs: seq<Verdict>): nat {
    if vs == [] then 0 else (if vs[0].status == Pass then 1 else 0) + PassCount(vs[1..])
  }

  lemma {:induction false} PassCountBounds(vs: seq<Verdict>)
    ensures PassCount(vs) <= |vs|
    ensures PassCount(vs) == |vs| <==> forall i :: 0 <= i < |vs| ==> vs[i].status == Pass
    ensures PassCount(vs) == 0 <==> forall i :: 0 <= i < |vs| ==> vs[i].status != Pass
  {
    if vs != [] {
      PassCountBounds(vs[1..]);
      assert forall i :: 1 <= i < |vs| ==> vs[i] == vs[1..][i - 1];
    }
  }

  lemma {:induction false} PassCountAppend(vs: seq<Verdict>, ws: seq<Verdict>)
    ensures PassCount(vs + ws) == PassCount(vs) + PassCount(ws)
  {
    if vs == [] {
      assert vs + ws == ws;
    } else {
      assert (vs + ws)[1..] == vs[1..] + ws;
      PassCountAppend(vs[1..], ws);
    }
  }

  /** `passed / total * 100` in tenths of a percent, rounded to the nearest tenth. */
  function PercentTenths(passed: nat, total: nat): nat
    requires total > 0
  {
    RoundHalfEven(1000 * passed, total)
  }

  lemma PercentTenthsBounds(passed: nat, total: nat)
    requires 0 < total && passed <= total
    ensures PercentTenths(passed, total) <= 1000
    ensures passed == total ==> PercentTenths(passed, total) == 1000
    ensures passed == 0 ==> PercentTenths(passed, total) == 0
  {
    RoundHalfEvenNearest(1000 * passed, total);
    TenthsBounds(PercentTenths(passed, total), passed, total);
  }

  /** A number of tenths within half a tenth of `passed / total * 1000` is a percentage of at most 100.0. */
  lemma TenthsBounds(q: nat, passed: nat, total: nat)
    requires 0 < total && passed <= total
    requires 2 * (q * total) <= 2 * (1000 * passed) + total
    requires 2 * (1000 * passed) <= 2 * (q * total) + total
    ensures q <= 1000
    ensures passed == total ==> q == 1000
    ensures passed == 0 ==> q == 0
  {
    assert 2 * q * total <= 2001 * total;
    MulLeCancel(2 * q, 2001, total);
    if passed == total {
      MulLeCancel(1999, 2 * q, total);
    }
    if passed == 0 {
      MulLeCancel(2 * q, 1, total);
    }
  }

  /** Dividing both sides of `x * t <= y * t` by a positive `t`. */
  lemma MulLeCancel(x: int, y: int, t: int)
    requires t > 0 && x * t <= y * t
    ensures x <= y
  {
    assert (x - y) * t == x * t - y * t;
  }

  /**
   * The result of one category analyzer. `score` is the percentage of
   * passing checks in tenths of a percent (`425` is `42.5`).
   */
  datatype CategoryResult = CategoryResult(score: nat, checks: seq<Check>, total: nat, passed: nat)

  /** `{'score': round(passed / len(checks) * 100, 1), 'checks': checks, 'total': len(checks), 'passed': passed}` */
  function Summarize(cs: seq<Check>): (r: CategoryResult)
    requires cs != []
    ensures r.checks == cs && r.total == |cs| && r.passed == PassCount(Project(cs))
  {
    var vs := Project(cs);
    PassCountBounds(vs);
    CategoryResult(PercentTenths(PassCount(vs), |cs|), cs, |cs|, PassCount(vs))
  }

  /**
   * The score of a summary is the pass percentage to the nearest tenth: at
   * most 100%, 100% when every check passes (and, below 2000 checks, only
   * then) and 0% when none does.
   */
  lemma SummaryScore(cs: seq<Check>)
    requires cs != []
    ensures var r := Summarize(cs);
      && r.passed <= r.total && r.score <= 1000
      && 2 * (r.score * r.total) <= 2000 * r.passed + r.total
      && 2000 * r.passed <= 2 * (r.score * r.total) + r.total
      && (r.passed == r.total <==> forall i :: 0 <= i < |cs| ==> cs[i].status == Pass)
      && (r.passed == r.total ==> r.score == 1000)
      && (r.total < 2000 && r.score == 1000 ==> r.passed == r.total)
      && (r.passed == 0 ==> r.score == 0)
  {
    var vs := Project(cs);
    PassCountBounds(vs);
    PercentTenthsBounds(PassCount(vs), |cs|);
    RoundHalfEvenNearest(1000 * PassCount(vs), |cs|);
  }

  /** A result as an analyzer returns it: its counts and score agree with its records. */
  predicate Consistent(r: CategoryResult) {
    r.checks != [] && r == Summarize(r.checks)
  }

  /** Every record of the list keeps at most `ValueLimit` characters of evidence. */
  predicate ValuesBounded(cs: seq<Check>) {
    forall i :: 0 <= i < |cs| ==> |cs[i].value| <= ValueLimit
  }
}
