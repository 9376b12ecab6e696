/**
 * The Python string built-ins the analyzers apply to page text, markup, URLs
 * and header values: `str.isspace`, `strip`, `split`, `lower`/`upper`, `in`,
 * `startswith`, `count`, `str(n)`, `'{:.Nf}'.format`, `join` and slicing.
 */
module Text {

  /** Python's `str.isspace()` for one character. */
  predicate IsSpace(c: char) {
    c == ' ' || '\t' <= c <= '\r' || '\U{1c}' <= c <= '\U{1f}'
    || c == '\U{85}' || c == '\U{a0}' || c == '\U{1680}'
    || '\U{2000}' <= c <= '\U{200a}' || c == '\U{2028}' || c == '\U{2029}'
    || c == '\U{202f}' || c == '\U{205f}' || c == '\U{3000}'
  }

  predicate IsUpperAscii(c: char) { 'A' <= c <= 'Z' }
  predicate IsLowerAscii(c: char) { 'a' <= c <= 'z' }

  function LowerChar(c: char): char {
    if IsUpperAscii(c) then (c as int + 32) as char else c
  }

  function UpperChar(c: char): char {
    if IsLowerAscii(c) then (c as int - 32) as char else c
  }

  /** `s.lower()`, on ASCII letters. */
  function Lower(s: string): string {
    seq(|s|, i requires 0 <= i < |s| => LowerChar(s[i]))
  }

  /** `s.upper()`, on ASCII letters. */
  function Upper(s: string): string {
    seq(|s|, i requires 0 <= i < |s| => UpperChar(s[i]))
  }

  /** A string equals its lower-cased form exactly when it has no upper-case letter. */
  lemma LowerFixpoint(s: string)
    ensures Lower(s) == s <==> forall i :: 0 <= i < |s| ==> !IsUpperAscii(s[i])
  {
    if Lower(s) == s {
      forall i | 0 <= i < |s| ensures !IsUpperAscii(s[i]) {
        assert Lower(s)[i] == s[i];
      }
    }
  }

  lemma LowerIdempotent(s: string)
    ensures Lower(Lower(s)) == Lower(s)
  {
    LowerFixpoint(Lower(s));
  }

  /** `s.startswith(prefix)` */
  predicate StartsWith(s: string, prefix: string) {
    |prefix| <= |s| && s[..|prefix|] == prefix
  }

  /** `sub in s` */
  predicate Contains(s: string, sub: string)
    decreases |s|
  {
    StartsWith(s, sub) || (|s| > 0 && Contains(s[1..], sub))
  }

  /** `sub` occurs in `s` starting at position `i`. */
  predicate OccursAt(s: string, sub: string, i: int) {
    0 <= i <= |s| - |sub| && s[i..i + |sub|] == sub
  }

  /** `sub in s` holds exactly when `sub` occurs at some position of `s`. */
  lemma {:induction false} ContainsAt(s: string, sub: string)
    ensures Contains(s, sub) <==> exists i :: OccursAt(s, sub, i)
  {
    if Contains(s, sub) {
      if !StartsWith(s, sub) {
        ContainsAt(s[1..], sub);
        var i :| OccursAt(s[1..], sub, i);
        assert s[1..][i..i + |sub|] == s[i + 1..i + 1 + |sub|];
        assert OccursAt(s, sub, i + 1);
      } else {
        assert OccursAt(s, sub, 0);
      }
    } else {
      forall i | OccursAt(s, sub, i) ensures false {
        NotContainsAt(s, sub, i);
      }
    }
  }

  lemma {:induction false} NotContainsAt(s: string, sub: string, i: int)
    requires !Contains(s, sub)
    requires 0 <= i <= |s| - |sub|
    ensures s[i..i + |sub|] != sub
  {
    if i > 0 {
      NotContainsAt(s[1..], sub, i - 1);
      assert s[1..][i - 1..i - 1 + |sub|] == s[i..i + |sub|];
    }
  }

  /** Lower-casing keeps every occurrence, lower-cased, at the same position. */
  lemma LowerOccurs(s: string, sub: string, i: int)
    requires OccursAt(s, sub, i)
    ensures OccursAt(Lower(s), Lower(sub), i)
  {
    forall k | 0 <= k < |sub|
      ensures Lower(s)[i + k] == Lower(sub)[k]
    {
      assert s[i..i + |sub|][k] == s[i + k];
    }
    assert Lower(s)[i..i + |sub|] == Lower(sub);
  }

  /** Where `a + b` occurs, `a` occurs. */
  lemma OccursPrefix(s: string, a: string, b: string, i: int)
    requires OccursAt(s, a + b, i)
    ensures OccursAt(s, a, i)
  {
    assert s[i..i + |a|] == s[i..i + |a + b|][..|a|];
  }

  /** The empty string is in every string (Python: `'' in s` is always true). */
  lemma ContainsEmpty(s: string)
    ensures Contains(s, "")
  {
    assert StartsWith(s, "");
  }

  /** `s.count(c)` for one character. */
  function CountChar(s: string, c: char): nat {
    if s == [] then 0 else (if s[0] == c then 1 else 0) + CountChar(s[1..], c)
  }

  /** `s.count(sub)`: non-overlapping occurrences, scanning left to right. */
  function Occurrences(s: string, sub: string): nat
    decreases |s|
  {
    if sub == [] then |s| + 1
    else if |s| < |sub| then 0
    else if s[..|sub|] == sub then 1 + Occurrences(s[|sub|..], sub)
    else Occurrences(s[1..], sub)
  }

  /** A non-empty substring is counted at least once exactly when it occurs. */
  lemma {:induction false} OccurrencesPositive(s: string, sub: string)
    requires sub != []
    ensures Occurrences(s, sub) > 0 <==> Contains(s, sub)
    decreases |s|
  {
    if |s| < |sub| {
      NotContainsShort(s, sub);
    } else if s[..|sub|] == sub {
      assert StartsWith(s, sub);
    } else {
      OccurrencesPositive(s[1..], sub);
    }
  }

  lemma {:induction false} NotContainsShort(s: string, sub: string)
    requires |s| < |sub|
    ensures !Contains(s, sub)
    decreases |s|
  {
    if |s| > 0 { NotContainsShort(s[1..], sub); }
  }

  /** `s.split(sep)` for a one-character separator. */
  function Split(s: string, sep: char): (parts: seq<string>)
    ensures |parts| >= 1
  {
    if s == [] then [""]
    else if s[0] == sep then [""] + Split(s[1..], sep)
    else
      var rest := Split(s[1..], sep);
      [[s[0]] + rest[0]] + rest[1..]
  }

  /** `sep.join(parts)` */
  function Join(parts: seq<string>, sep: string): string {
    if parts == [] then ""
    else if |parts| == 1 then parts[0]
    else parts[0] + sep + Join(parts[1..], sep)
  }

  /** Splitting yields one more piece than there are separators. */
  lemma {:induction false} SplitLength(s: string, sep: char)
    ensures |Split(s, sep)| == CountChar(s, sep) + 1
  {
    if s != [] { SplitLength(s[1..], sep); }
  }

  /** No piece contains the separator. */
  lemma {:induction false} SplitPieces(s: string, sep: char)
    ensures forall k :: 0 <= k < |Split(s, sep)| ==> sep !in Split(s, sep)[k]
  {
    if s != [] {
      SplitPieces(s[1..], sep);
      var rest := Split(s[1..], sep);
      if s[0] != sep {
        assert forall k :: 1 <= k < |Split(s, sep)| ==> Split(s, sep)[k] == rest[k];
      } else {
        assert forall k :: 1 <= k < |Split(s, sep)| ==> Split(s, sep)[k] == rest[k - 1];
      }
    }
  }

  /** Joining the pieces with the separator gives back the string. */
  lemma {:induction false} SplitJoin(s: string, sep: char)
    ensures Join(Split(s, sep), [sep]) == s
  {
    if s != [] {
      SplitJoin(s[1..], sep);
      var rest := Split(s[1..], sep);
      if s[0] == sep {
        assert Split(s, sep) == [""] + rest;
        assert Join(Split(s, sep), [sep]) == "" + [sep] + Join(rest, [sep]);
      } else {
        JoinPrepend([s[0]], rest, [sep]);
      }
      assert s == [s[0]] + s[1..];
    }
  }

  /** Prefixing the first piece prefixes the joined string. */
  lemma JoinPrepend(c: string, parts: seq<string>, sep: string)
    requires |parts| >= 1
    ensures Join([c + parts[0]] + parts[1..], sep) == c + Join(parts, sep)
  {
    var longer := [c + parts[0]] + parts[1..];
    if |parts| == 1 {
      assert longer == [c + parts[0]];
    } else {
      assert longer[1..] == parts[1..];
      assert Join(longer, sep) == (c + parts[0]) + sep + Join(parts[1..], sep);
    }
  }

  /** Splitting at a separator splits the pieces: `(a + sep + b).split(sep)`. */
  lemma {:induction false} SplitConcat(a: string, b: string, sep: char)
    ensures Split(a + [sep] + b, sep) == Split(a, sep) + Split(b, sep)
  {
    if a == [] {
      assert a + [sep] + b == [sep] + b;
      assert ([sep] + b)[1..] == b;
    } else {
      assert (a + [sep] + b)[1..] == a[1..] + [sep] + b;
      SplitConcat(a[1..], b, sep);
    }
  }

  /** A string without the separator is its own single piece. */
  lemma {:induction false} SplitNoSeparator(s: string, sep: char)
    requires sep !in s
    ensures Split(s, sep) == [s]
  {
    if s != [] {
      SplitNoSeparator(s[1..], sep);
      assert s == [s[0]] + s[1..];
    }
  }

  /** The length of the leading run of non-space characters. */
  function WordLength(s: string): (k: nat)
    requires s != [] && !IsSpace(s[0])
    ensures 1 <= k <= |s|
    ensures forall i :: 0 <= i < k ==> !IsSpace(s[i])
    ensures k < |s| ==> IsSpace(s[k])
  {
    if |s| == 1 || IsSpace(s[1]) then 1 else 1 + WordLength(s[1..])
  }

  /** `s.split()`: the maximal runs of non-space characters. */
  function Words(s: string): (ws: seq<string>)
    ensures forall k :: 0 <= k < |ws| ==> ws[k] != [] && forall i :: 0 <= i < |ws[k]| ==> !IsSpace(ws[k][i])
    decreases |s|
  {
    if s == [] then []
    else if IsSpace(s[0]) then Words(s[1..])
    else
      var k := WordLength(s);
      [s[..k]] + Words(s[k..])
  }

  /** A string with no white space at all. */
  predicate IsWord(w: string) {
    w != [] && forall i :: 0 <= i < |w| ==> !IsSpace(w[i])
  }

  /** Words separated by single spaces split back into the same words. */
  lemma {:induction false} WordsJoin(ws: seq<string>)
    requires forall k :: 0 <= k < |ws| ==> IsWord(ws[k])
    ensures Words(Join(ws, " ")) == ws
  {
    if ws == [] {
    } else if |ws| == 1 {
      WordsOfWord(ws[0], "");
      assert ws[0] + "" == ws[0];
    } else {
      var rest := Join(ws[1..], " ");
      WordsOfWord(ws[0], " " + rest);
      assert ws[0] + " " + rest == ws[0] + (" " + rest);
      WordsJoin(ws[1..]);
      assert (" " + rest)[1..] == rest;
      assert ws == [ws[0]] + ws[1..];
    }
  }

  /** A word followed by text that is empty or starts with a space splits off first. */
  lemma WordsOfWord(w: string, rest: string)
    requires IsWord(w)
    requires rest == [] || IsSpace(rest[0])
    ensures Words(w + rest) == [w] + Words(rest)
  {
    var s := w + rest;
    var k := WordLength(s);
    assert forall i :: 0 <= i < |w| ==> s[i] == w[i];
    assert |w| < |s| ==> s[|w|] == rest[0];
    assert k == |w|;
    assert s[..k] == w;
    assert s[k..] == rest;
  }

  function TrimStart(s: string): string {
    if s != [] && IsSpace(s[0]) then TrimStart(s[1..]) else s
  }

  function TrimEnd(s: string): string {
    if s != [] && IsSpace(s[|s| - 1]) then TrimEnd(s[..|s| - 1]) else s
  }

  /** `s.strip()` */
  function Strip(s: string): string {
    TrimEnd(TrimStart(s))
  }

  lemma {:induction false} TrimStartBlank(s: string)
    ensures TrimStart(s) == [] <==> forall i :: 0 <= i < |s| ==> IsSpace(s[i])
  {
    if s != [] && IsSpace(s[0]) {
      TrimStartBlank(s[1..]);
      assert forall i :: 1 <= i < |s| ==> s[i] == s[1..][i - 1];
    }
  }

  lemma {:induction false} TrimEndBlank(s: string)
    ensures TrimEnd(s) == [] <==> forall i :: 0 <= i < |s| ==> IsSpace(s[i])
  {
    if s != [] && IsSpace(s[|s| - 1]) {
      TrimEndBlank(s[..|s| - 1]);
    }
  }

  lemma TrimStartEdge(s: string)
    ensures TrimStart(s) == [] || !IsSpace(TrimStart(s)[0])
  {
  }

  /**
   * `s.strip()` is empty exactly when `s` is all white space (Python:
   * `not s.strip()`), and otherwise starts and ends with a non-space.
   */
  lemma StripBlank(s: string)
    ensures Strip(s) == [] <==> forall i :: 0 <= i < |s| ==> IsSpace(s[i])
  {
    TrimStartBlank(s);
    TrimEndBlank(TrimStart(s));
    TrimStartEdge(s);
  }

  /** `s[:n]` */
  function Take(s: string, n: nat): string {
    if |s| <= n then s else s[..n]
  }

  /** `s or fallback` */
  function OrElse(s: string, fallback: string): string {
    if s != "" then s else fallback
  }

  function DigitChar(d: nat): char
    requires d < 10
  {
    "0123456789"[d]
  }

  /** `str(n)` for a natural number. */
  function NatToString(n: nat): (s: string)
    ensures s != []
    ensures forall i :: 0 <= i < |s| ==> '0' <= s[i] <= '9'
  {
    if n < 10 then [DigitChar(n)] else NatToString(n / 10) + [DigitChar(n % 10)]
  }

  /** The number that a string of decimal digits denotes. */
  function DecimalValue(s: string): nat
    requires forall i :: 0 <= i < |s| ==> '0' <= s[i] <= '9'
  {
    if s == [] then 0 else 10 * DecimalValue(s[..|s| - 1]) + (s[|s| - 1] as int - '0' as int)
  }

  /** `int(str(n)) == n` */
  lemma {:induction false} NatToStringRoundTrip(n: nat)
    ensures DecimalValue(NatToString(n)) == n
  {
    if n >= 10 {
      NatToStringRoundTrip(n / 10);
      var s := NatToString(n);
      assert s[..|s| - 1] == NatToString(n / 10);
    }
  }

  function Pow10(k: nat): (r: nat)
    ensures r >= 1
  {
    if k == 0 then 1 else 10 * Pow10(k - 1)
  }

  /**
   * `num / den` rounded to the nearest natural number, ties to the even one:
   * how Python rounds an exactly represented value.
   */
  function RoundHalfEven(num: nat, den: nat): nat
    requires den > 0
  {
    var q := num / den;
    var r := num % den;
    if 2 * r > den || (2 * r == den && q % 2 == 1) then q + 1 else q
  }

  /** The rounded quotient is within half a unit of the exact one. */
  lemma RoundHalfEvenNearest(num: nat, den: nat)
    requires den > 0
    ensures 2 * (RoundHalfEven(num, den) * den) <= 2 * num + den
    ensures 2 * num <= 2 * (RoundHalfEven(num, den) * den) + den
  {
    var q := num / den;
    var r := num % den;
    var m := q * den;
    assert num == m + r && 0 <= r < den;
    var rounded := RoundHalfEven(num, den);
    if 2 * r > den || (2 * r == den && q % 2 == 1) {
      assert rounded == q + 1;
      assert rounded * den == m + den by {
        assert (q + 1) * den == q * den + den;
      }
    } else {
      assert rounded == q;
    }
  }

  /** A mean of values that are each at most `bound` rounds to at most `bound`. */
  lemma RoundHalfEvenAtMost(num: nat, den: nat, bound: nat)
    requires den > 0 && num <= bound * den
    ensures RoundHalfEven(num, den) <= bound
  {
    var q := num / den;
    var r := num % den;
    assert num == q * den + r && 0 <= r < den;
    assert (bound - q) * den == bound * den - q * den;
    assert (bound - q) * den >= r;
  }

  function PadLeft(s: string, width: nat, fill: char): (r: string)
    ensures |r| == if |s| < width then width else |s|
    decreases width - |s|
  {
    if |s| < width then PadLeft([fill] + s, width, fill) else s
  }

  /** `f'{num / den:.{places}f}'` for a non-negative value held exactly as a fraction. */
  function FormatFixed(num: nat, den: nat, places: nat): string
    requires den > 0
  {
    var scale := Pow10(places);
    var q := RoundHalfEven(Product(num, scale), den);
    if places == 0 then NatToString(q)
    else NatToString(Quotient(q, scale)) + "." + PadLeft(NatToString(Remainder(q, scale)), places, '0')
  }

  /** `f'{num / den if den else 0:.{places}f}'`: a guarded quotient, formatted. */
  function FormatQuotient(num: nat, den: nat, places: nat): string {
    if den == 0 then FormatFixed(0, 1, places) else FormatFixed(num, den, places)
  }

  function Product(a: nat, b: nat): nat {
    a * b
  }

  function Quotient(a: nat, b: nat): nat
    requires b > 0
  {
    a / b
  }

  function Remainder(a: nat, b: nat): nat
    requires b > 0
  {
    a % b
  }
}
