/** List comprehensions with a condition: `[x for x in xs if f(x)]`. */
module Lists {

  /** The elements of `xs` that satisfy `f`, in their original order. */
  function Filter<T>(xs: seq<T>, f: T -> bool): (ys: seq<T>)
    ensures |ys| <= |xs|
    ensures forall y :: y in ys ==> y in xs && f(y)
    ensures forall x :: x in xs && f(x) ==> x in ys
  {
    if xs == [] then [] else (if f(xs[0]) then [xs[0]] else []) + Filter(xs[1..], f)
  }

  lemma {:induction false} FilterAppend<T>(xs: seq<T>, zs: seq<T>, f: T -> bool)
    ensures Filter(xs + zs, f) == Filter(xs, f) + Filter(zs, f)
  {
    if xs == [] {
      assert xs + zs == zs;
    } else {
      assert (xs + zs)[1..] == xs[1..] + zs;
      FilterAppend(xs[1..], zs, f);
    }
  }

  /** Filtering keeps everything exactly when every element satisfies the condition. */
  lemma {:induction false} FilterAll<T>(xs: seq<T>, f: T -> bool)
    ensures |Filter(xs, f)| == |xs| <==> forall x :: x in xs ==> f(x)
  {
    if xs != [] {
      FilterAll(xs[1..], f);
      assert forall x :: x in xs ==> x == xs[0] || x in xs[1..];
    }
  }

  /** Filtering keeps nothing exactly when no element satisfies the condition. */
  lemma {:induction false} FilterNone<T>(xs: seq<T>, f: T -> bool)
    ensures Filter(xs, f) == [] <==> forall x :: x in xs ==> !f(x)
  {
    if xs != [] {
      FilterNone(xs[1..], f);
      assert forall x :: x in xs ==> x == xs[0] || x in xs[1..];
    }
  }

  /*
   * Appending the elements of `g` one at a time is appending `g`: the step
   * from a run of single `append` calls to the block of records they add.
   */

  lemma Appended2<T>(v: seq<T>, g: seq<T>)
    requires |g| == 2
    ensures v + [g[0]] + [g[1]] == v + g
  {
  }

  lemma Appended3<T>(v: seq<T>, g: seq<T>)
    requires |g| == 3
    ensures v + [g[0]] + [g[1]] + [g[2]] == v + g
  {
  }

  /** A list that only ever grows at its end still starts with what it held before the steps. */
  lemma Prefixes2<T>(v0: seq<T>, v1: seq<T>, v2: seq<T>)
    requires v0 <= v1 && v1 <= v2
    ensures v0 <= v2
  {
  }

  lemma Prefixes3<T>(v0: seq<T>, v1: seq<T>, v2: seq<T>, v3: seq<T>)
    requires v0 <= v1 && v1 <= v2 && v2 <= v3
    ensures v0 <= v3
  {
  }

  /** Two blocks appended one after the other are their concatenation appended once. */
  lemma Extended<T>(v0: seq<T>, v1: seq<T>, v2: seq<T>, a: seq<T>, b: seq<T>)
    requires v1 == v0 + a && v2 == v1 + b
    ensures v2 == v0 + (a + b)
  {
  }

  /*
   * A list that starts empty and grows by one block per step ends as the
   * blocks in order: the step from an analyzer's section-by-section appends
   * to its whole table of records.
   */

  lemma Chained3<T>(v0: seq<T>, v1: seq<T>, v2: seq<T>, v3: seq<T>, a: seq<T>, b: seq<T>, c: seq<T>)
    requires v0 == [] && v1 == v0 + a && v2 == v1 + b && v3 == v2 + c
    ensures v3 == a + b + c
  {
  }

  lemma Chained4<T>(v0: seq<T>, v1: seq<T>, v2: seq<T>, v3: seq<T>, v4: seq<T>,
                    a: seq<T>, b: seq<T>, c: seq<T>, d: seq<T>)
    requires v0 == [] && v1 == v0 + a && v2 == v1 + b && v3 == v2 + c && v4 == v3 + d
    ensures v4 == a + b + c + d
  {
  }

  lemma Chained5<T>(v0: seq<T>, v1: seq<T>, v2: seq<T>, v3: seq<T>, v4: seq<T>, v5: seq<T>,
                    a: seq<T>, b: seq<T>, c: seq<T>, d: seq<T>, e: seq<T>)
    requires v0 == [] && v1 == v0 + a && v2 == v1 + b && v3 == v2 + c && v4 == v3 + d && v5 == v4 + e
    ensures v5 == a + b + c + d + e
  {
  }
}
