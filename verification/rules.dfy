/**
 * Decision rules that several analyzers share, and what they promise. Every
 * ratio threshold of the analyzers is decided here on integers by
 * cross-multiplication; a lemma beside each rule shows it agrees with the
 * source's formula evaluated on exact rationals, zero-denominator guard included.
 */
module Rules {
  import opened Text
  import opened Lists
  import opened Checks

  // ----- Tiers -----

  /** `'pass' if n >= passAt else ('warning' if n >= warnAt else 'fail')` */
  function TierAtLeast(n: nat, warnAt: nat, passAt: nat): Status {
    if n >= passAt then Pass else if n >= warnAt then Warning else Fail
  }

  /** `'pass' if n < passBelow else ('warning' if n < warnBelow else 'fail')` */
  function TierBelow(n: nat, passBelow: nat, warnBelow: nat): Status {
    if n < passBelow then Pass else if n < warnBelow then Warning else Fail
  }

  /** A rank on outcomes for the three-way tiers: fail below warning below pass. */
  function Rank(s: Status): nat {
    match s
    case Fail => 0
    case Warning => 1
    case Pass => 2
    case Info => 1
  }

  /** More words never give a worse tier, and the three bands are exactly the intervals. */
  lemma TierAtLeastBands(m: nat, n: nat, warnAt: nat, passAt: nat)
    requires warnAt <= passAt && m <= n
    ensures Rank(TierAtLeast(m, warnAt, passAt)) <= Rank(TierAtLeast(n, warnAt, passAt))
    ensures TierAtLeast(n, warnAt, passAt) == Pass <==> passAt <= n
    ensures TierAtLeast(n, warnAt, passAt) == Warning <==> warnAt <= n < passAt
    ensures TierAtLeast(n, warnAt, passAt) == Fail <==> n < warnAt
  {
  }

  /** A larger measurement never gives a better tier. */
  lemma TierBelowBands(m: nat, n: nat, passBelow: nat, warnBelow: nat)
    requires passBelow <= warnBelow && m <= n
    ensures Rank(TierBelow(n, passBelow, warnBelow)) <= Rank(TierBelow(m, passBelow, warnBelow))
    ensures TierBelow(n, passBelow, warnBelow) == Pass <==> n < passBelow
    ensures TierBelow(n, passBelow, warnBelow) == Warning <==> passBelow <= n < warnBelow
    ensures TierBelow(n, passBelow, warnBelow) == Fail <==> warnBelow <= n
  {
  }

  /** H1 count: exactly one passes, none fails, several warn. */
  function H1Status(count: nat): (s: Status)
    ensures s == Pass <==> count == 1
    ensures s == Fail <==> count == 0
    ensures s == Warning <==> count > 1
  {
    if count == 1 then Pass else if count == 0 then Fail else Warning
  }

  /**
   * AI-Friendly Length: 500 to 3000 words pass, under 300 warn, anything
   * else (300-499 words, or more than 3000) is only informational.
   */
  function AiLengthStatus(words: nat): (s: Status)
    ensures s == Pass <==> 500 <= words <= 3000
    ensures s == Warning <==> words < 300
    ensures s == Info <==> (300 <= words < 500 || words > 3000)
  {
    if 500 <= words <= 3000 then Pass else if words < 300 then Warning else Info
  }

  // ----- Exact ratios -----

  /** `x / y if y else 0` evaluated exactly. */
  function Ratio(x: nat, y: nat): real {
    if y == 0 then 0.0 else x as real / y as real
  }

  /** Comparing a quotient with a bound is comparing the cross products. */
  lemma QuotientAtLeast(x: real, y: real, c: real)
    requires y > 0.0
    ensures x / y >= c <==> x >= c * y
  {
    assert x / y * y == x;
    if x / y >= c {
      assert x / y * y >= c * y;
    }
    if x >= c * y {
      assert (x / y - c) * y == x - c * y;
    }
  }

  lemma QuotientAbove(x: real, y: real, c: real)
    requires y > 0.0
    ensures x / y > c <==> x > c * y
  {
    assert x / y * y == x;
    if x / y > c {
      assert (x / y - c) * y == x - c * y;
    }
    if x > c * y {
      assert (x / y - c) * y == x - c * y;
    }
  }

  /** Title Uniqueness: distinct words are at least 70% of the title's words. */
  predicate MostlyUnique(unique: nat, total: nat) {
    10 * unique >= 7 * total
  }

  lemma MostlyUniqueExact(unique: nat, total: nat)
    ensures MostlyUnique(unique, total) <==> unique as real >= total as real * 0.7
  {
  }

  /** Meaningful Alt Text: empty `alt` on at most 20% of the images. */
  predicate FewEmptyAlts(empty: nat, images: nat) {
    5 * empty <= images
  }

  lemma FewEmptyAltsExact(empty: nat, images: nat)
    ensures FewEmptyAlts(empty, images) <==> empty as real <= images as real * 0.2
  {
  }

  /** Touch Targets: small targets are fewer than 10% of buttons and links. */
  predicate FewSmallTargets(small: nat, targets: nat) {
    10 * small < targets
  }

  lemma FewSmallTargetsExact(small: nat, targets: nat)
    ensures FewSmallTargets(small, targets) <==> (small as real) < targets as real * 0.1
  {
  }

  /** At least half: `part >= whole * 0.5` (Non-blocking JS, Descriptive Headings). */
  predicate AtLeastHalf(part: nat, whole: nat) {
    2 * part >= whole
  }

  lemma AtLeastHalfExact(part: nat, whole: nat)
    ensures AtLeastHalf(part, whole) <==> part as real >= whole as real * 0.5
  {
  }

  /** Vocabulary Diversity: the unique-word ratio exceeds 0.3 (a page without words fails). */
  predicate DiverseVocabulary(unique: nat, words: nat) {
    words > 0 && 10 * unique > 3 * words
  }

  lemma DiverseVocabularyExact(unique: nat, words: nat)
    ensures DiverseVocabulary(unique, words) <==> Ratio(unique, words) > 0.3
  {
    if words > 0 {
      QuotientAbove(unique as real, words as real, 0.3);
    }
  }

  /** Self-Contained Sentences: under 20% of the sentences open with a pronoun. */
  predicate FewPronounStarts(pronoun: nat, sentences: nat) {
    sentences == 0 || 5 * pronoun < sentences
  }

  lemma FewPronounStartsExact(pronoun: nat, sentences: nat)
    ensures FewPronounStarts(pronoun, sentences) <==> Ratio(pronoun, sentences) < 0.2
  {
    if sentences > 0 {
      QuotientAtLeast(pronoun as real, sentences as real, 0.2);
    }
  }

  /** Plain Language: words over 12 characters are under 5% of the words. */
  predicate PlainLanguage(complex: nat, words: nat) {
    words == 0 || 20 * complex < words
  }

  lemma PlainLanguageExact(complex: nat, words: nat)
    ensures PlainLanguage(complex, words) <==> Ratio(complex, words) < 0.05
  {
    if words > 0 {
      QuotientAtLeast(complex as real, words as real, 0.05);
    }
  }

  /** Conversational Tone: you/we phrases exceed 0.5% of the words. */
  predicate Conversational(phrases: nat, words: nat) {
    words > 0 && 200 * phrases > words
  }

  lemma ConversationalExact(phrases: nat, words: nat)
    ensures Conversational(phrases, words) <==> Ratio(phrases, words) > 0.005
  {
    if words > 0 {
      QuotientAbove(phrases as real, words as real, 0.005);
    }
  }

  /** Sentence Length: 10 to 20 words per sentence on average; no sentences means an average of 0. */
  predicate SentenceLengthOk(words: nat, sentences: nat) {
    sentences > 0 && 10 * sentences <= words <= 20 * sentences
  }

  lemma SentenceLengthExact(words: nat, sentences: nat)
    ensures SentenceLengthOk(words, sentences) <==> 10.0 <= Ratio(words, sentences) <= 20.0
  {
    if sentences > 0 {
      QuotientAtLeast(words as real, sentences as real, 10.0);
      QuotientAbove(words as real, sentences as real, 20.0);
    }
  }

  /** `len(all_links) / (word_count / 100) if word_count else 0` */
  function LinkDensity(links: nat, words: nat): real {
    if words == 0 then 0.0 else links as real / (words as real / 100.0)
  }

  /** Link Density: between 1 and 10 links per 100 words. */
  predicate LinkDensityOk(links: nat, words: nat) {
    words > 0 && words <= 100 * links <= 10 * words
  }

  /** The integer rule is the source's guarded density test; a page without words warns. */
  lemma LinkDensityExact(links: nat, words: nat)
    ensures LinkDensityOk(links, words) <==> 1.0 <= LinkDensity(links, words) <= 10.0
    ensures words == 0 ==> LinkDensity(links, words) == 0.0 && !LinkDensityOk(links, words)
  {
    if words > 0 {
      var per := words as real / 100.0;
      assert LinkDensity(links, words) == links as real / per;
      QuotientAtLeast(links as real, per, 1.0);
      QuotientAbove(links as real, per, 10.0);
    }
  }

  /** `(h2 + h3) / (word_count / 300) if word_count > 300 else 1` */
  function SectionRatio(sections: nat, words: nat): real {
    if words > 300 then sections as real / (words as real / 300.0) else 1.0
  }

  /** Section Granularity: at least 0.8 H2/H3 headings per 300 words; short pages pass. */
  predicate SectionsOk(sections: nat, words: nat) {
    words <= 300 || 375 * sections >= words
  }

  lemma SectionsExact(sections: nat, words: nat)
    ensures SectionsOk(sections, words) <==> SectionRatio(sections, words) >= 0.8
  {
    if words > 300 {
      QuotientAtLeast(sections as real, words as real / 300.0, 0.8);
    }
  }

  /** `len(response.content) / 1024 < kb` */
  predicate SizeBelowKb(bytes: nat, kb: nat) {
    bytes < 1024 * kb
  }

  lemma SizeBelowKbExact(bytes: nat, kb: nat)
    ensures SizeBelowKb(bytes, kb) <==> bytes as real / 1024.0 < kb as real
  {
    QuotientAtLeast(bytes as real, 1024.0, kb as real);
  }

  // ----- Heading order -----

  /** `all(order[i] <= order[i-1] + 1 for i in range(1, len(order)))`: no level is skipped going down. */
  predicate HierarchyOk(levels: seq<int>) {
    forall i :: 1 <= i < |levels| ==> levels[i] <= levels[i - 1] + 1
  }

  /** The same rule read pair by pair from the front. */
  predicate NoSkippedLevel(levels: seq<int>) {
    |levels| <= 1 || (levels[1] <= levels[0] + 1 && NoSkippedLevel(levels[1..]))
  }

  lemma {:induction false} HierarchyRecursive(levels: seq<int>)
    ensures HierarchyOk(levels) <==> NoSkippedLevel(levels)
  {
    if |levels| > 1 {
      HierarchyRecursive(levels[1..]);
      assert forall i :: 1 <= i < |levels| - 1 ==> levels[1..][i] == levels[i + 1] && levels[1..][i - 1] == levels[i];
      if NoSkippedLevel(levels) {
        forall i | 1 <= i < |levels| ensures levels[i] <= levels[i - 1] + 1 {
          if i > 1 {
            assert levels[1..][i - 1] == levels[i];
          }
        }
      }
    }
  }

  /** In an accepted outline, the heading at position `i` is at most `i` levels below the first. */
  lemma {:induction false} HierarchyDepth(levels: seq<int>, i: nat)
    requires HierarchyOk(levels) && i < |levels|
    ensures levels[i] <= levels[0] + i
  {
    if i > 0 {
      HierarchyDepth(levels, i - 1);
    }
  }

  /** Two outlines join into an accepted one exactly when both are accepted and the seam skips no level. */
  lemma HierarchyAppend(a: seq<int>, b: seq<int>)
    ensures HierarchyOk(a + b) <==>
      HierarchyOk(a) && HierarchyOk(b) && (a == [] || b == [] || b[0] <= a[|a| - 1] + 1)
  {
    var ab := a + b;
    if HierarchyOk(ab) {
      forall i | 1 <= i < |b| ensures b[i] <= b[i - 1] + 1 {
        assert ab[|a| + i] == b[i] && ab[|a| + i - 1] == b[i - 1];
      }
      forall i | 1 <= i < |a| ensures a[i] <= a[i - 1] + 1 {
        assert ab[i] == a[i] && ab[i - 1] == a[i - 1];
      }
      if a != [] && b != [] {
        assert ab[|a|] == b[0] && ab[|a| - 1] == a[|a| - 1];
      }
    }
  }

  lemma HierarchyExamples()
    ensures HierarchyOk([])
    ensures HierarchyOk([1, 2, 3, 2, 1])
    ensures !HierarchyOk([1, 3])
  {
    var bad := [1, 3];
    assert bad[1] > bad[0] + 1;
  }

  // ----- URL structure -----

  /** `len([p for p in path.split('/') if p])` */
  function UrlDepth(path: string): nat {
    |Filter(Split(path, '/'), (s: string) => s != "")|
  }

  /** Depth adds up across a slash: `/a/b` + `/` + `c` is one level deeper than `/a/b`. */
  lemma UrlDepthConcat(a: string, b: string)
    ensures UrlDepth(a + "/" + b) == UrlDepth(a) + UrlDepth(b)
  {
    assert a + "/" + b == a + ['/'] + b;
    SplitConcat(a, b, '/');
    FilterAppend(Split(a, '/'), Split(b, '/'), (s: string) => s != "");
  }

  /** A segment without slashes is one level; the root path has none. */
  lemma UrlDepthSegment(s: string)
    requires s != [] && '/' !in s
    ensures UrlDepth(s) == 1
    ensures UrlDepth("/") == 0
    ensures UrlDepth("/" + s) == 1
  {
    SplitNoSeparator(s, '/');
    UrlDepthConcat("", s);
    UrlDepthConcat("", "");
    assert "" + "/" + s == "/" + s;
    assert "" + "/" + "" == "/";
  }

  /** There are never more levels than `/`-separated pieces. */
  lemma UrlDepthBound(path: string)
    ensures UrlDepth(path) <= CountChar(path, '/') + 1
  {
    SplitLength(path, '/');
  }

  /** `len(query.split('&')) if query else 0` */
  function ParamCount(query: string): nat {
    if query == "" then 0 else |Split(query, '&')|
  }

  /** A non-empty query has one parameter more than it has `&` separators. */
  lemma ParamCountSeparators(query: string)
    ensures query == "" ==> ParamCount(query) == 0
    ensures query != "" ==> ParamCount(query) == CountChar(query, '&') + 1
  {
    SplitLength(query, '&');
  }

  // ----- Distinct elements -----

  /** `len(set(xs))` */
  function DistinctCount<T(==)>(xs: seq<T>): nat {
    |set x | x in xs|
  }

  /** There are never more distinct elements than elements, and exactly as many when none repeats. */
  lemma {:induction false} DistinctCountBound<T>(xs: seq<T>)
    ensures DistinctCount(xs) <= |xs|
    ensures (forall i, j :: 0 <= i < j < |xs| ==> xs[i] != xs[j]) ==> DistinctCount(xs) == |xs|
  {
    if xs != [] {
      var rest := xs[1..];
      DistinctCountBound(rest);
      assert (set x | x in xs) == {xs[0]} + (set x | x in rest) by {
        assert xs == [xs[0]] + rest;
      }
      if forall i, j :: 0 <= i < j < |xs| ==> xs[i] != xs[j] {
        forall i, j | 0 <= i < j < |rest| ensures rest[i] != rest[j] {
          assert rest[i] == xs[i + 1] && rest[j] == xs[j + 1];
        }
        forall k | 0 <= k < |rest| ensures rest[k] != xs[0] {
          assert rest[k] == xs[k + 1];
        }
        assert xs[0] !in (set x | x in rest);
      }
    }
  }
}
