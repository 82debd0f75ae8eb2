/**
 * Finite sums over a table, in the order a `for _, x := range table` loop
 * visits it. Every series evaluator of the ephemeris accumulates such a sum;
 * the lemmas here are what makes "over reals the table order does not
 * matter" and "the sum is linear in the coefficients" provable for each of
 * them.
 */
module Sums {

  /** f(s[0]) + f(s[1]) + ... + f(s[|s|-1]), accumulated left to right. */
  function Sum<T>(s: seq<T>, f: T -> real): real
  {
    if |s| == 0 then 0.0 else Sum(s[..|s| - 1], f) + f(s[|s| - 1])
  }

  /** One more loop iteration adds the next term. */
  lemma SumStep<T>(s: seq<T>, i: nat, f: T -> real)
    requires i < |s|
    ensures Sum(s[..i + 1], f) == Sum(s[..i], f) + f(s[i])
  {
    assert s[..i + 1][..i] == s[..i];
  }

  lemma {:induction false} SumConcat<T>(a: seq<T>, b: seq<T>, f: T -> real)
    ensures Sum(a + b, f) == Sum(a, f) + Sum(b, f)
  {
    if |b| == 0 {
      assert a + b == a;
    } else {
      var b' := b[..|b| - 1];
      assert (a + b)[..|a + b| - 1] == a + b';
      SumConcat(a, b', f);
    }
  }

  /** A scaled sum over a concatenation is the sum of the scaled parts. */
  lemma SumConcatScaled<T>(a: seq<T>, b: seq<T>, f: T -> real, k: real)
    ensures Sum(a + b, f) * k == Sum(a, f) * k + Sum(b, f) * k
  {
    SumConcat(a, b, f);
    var x, y := Sum(a, f), Sum(b, f);
    assert (x + y) * k == x * k + y * k;
  }

  /** The sum is the sum of all but the last term, plus the last. */
  lemma SumLast<T>(s: seq<T>, f: T -> real)
    requires |s| > 0
    ensures Sum(s, f) == Sum(s[..|s| - 1], f) + f(s[|s| - 1])
  {
  }

  lemma SumSingle<T>(x: T, f: T -> real)
    ensures Sum([x], f) == f(x)
  {
    assert [x][..0] == [];
  }

  /** Removing the term at index j takes exactly f(s[j]) out of the sum. */
  lemma SumRemove<T>(s: seq<T>, j: nat, f: T -> real)
    requires j < |s|
    ensures Sum(s, f) == Sum(s[..j] + s[j + 1..], f) + f(s[j])
  {
    assert s == s[..j] + ([s[j]] + s[j + 1..]);
    SumConcat(s[..j], [s[j]] + s[j + 1..], f);
    SumConcat([s[j]], s[j + 1..], f);
    SumConcat(s[..j], s[j + 1..], f);
    SumSingle(s[j], f);
  }

  /** Taking out the element at index j takes exactly one copy of it out of the multiset. */
  lemma MultisetRemove<T>(s: seq<T>, j: nat)
    requires j < |s|
    ensures multiset(s[..j] + s[j + 1..]) == multiset(s) - multiset{s[j]}
  {
    assert s == s[..j] + [s[j]] + s[j + 1..];
    assert multiset(s) == multiset(s[..j]) + multiset{s[j]} + multiset(s[j + 1..]);
  }

  /** The sum depends only on the multiset of terms, not on their order. */
  lemma {:induction false} SumPermutation<T>(a: seq<T>, b: seq<T>, f: T -> real)
    requires multiset(a) == multiset(b)
    ensures Sum(a, f) == Sum(b, f)
    decreases |a|
  {
    if |a| == 0 {
      assert |multiset(b)| == 0;
    } else {
      var n := |a|;
      var x := a[n - 1];
      MultisetRemove(a, n - 1);
      assert a[..n - 1] + a[n..] == a[..n - 1];
      assert x in multiset(b);
      var j :| 0 <= j < |b| && b[j] == x;
      MultisetRemove(b, j);
      SumPermutation(a[..n - 1], b[..j] + b[j + 1..], f);
      SumRemove(b, j, f);
    }
  }

  /** Scaling every term by k scales the sum by k. */
  lemma {:induction false} SumScale<T>(s: seq<T>, f: T -> real, g: T -> real, k: real)
    requires forall i :: 0 <= i < |s| ==> g(s[i]) == k * f(s[i])
    ensures Sum(s, g) == k * Sum(s, f)
  {
    if |s| > 0 {
      SumScale(s[..|s| - 1], f, g, k);
    }
  }

  /** Two term functions that agree on the table give the same sum. */
  lemma {:induction false} SumCongruent<T>(s: seq<T>, f: T -> real, g: T -> real)
    requires forall i :: 0 <= i < |s| ==> f(s[i]) == g(s[i])
    ensures Sum(s, f) == Sum(s, g)
  {
    if |s| > 0 {
      SumCongruent(s[..|s| - 1], f, g);
    }
  }

  /** The sequence of images F(x) of the elements of s. */
  function Map<T, U>(s: seq<T>, F: T -> U): (r: seq<U>)
    ensures |r| == |s|
    ensures forall i :: 0 <= i < |s| ==> r[i] == F(s[i])
  {
    if |s| == 0 then [] else Map(s[..|s| - 1], F) + [F(s[|s| - 1])]
  }

  /** The images of all but the last element, and the image of the last. */
  lemma MapLast<T, U>(s: seq<T>, F: T -> U)
    requires |s| > 0
    ensures Map(s, F)[..|s| - 1] == Map(s[..|s| - 1], F)
    ensures Map(s, F)[|s| - 1] == F(s[|s| - 1])
  {
  }

  /** f after F. */
  function Compose<T, U>(F: T -> U, f: U -> real): T -> real
  {
    x => f(F(x))
  }

  lemma ComposeApply<T, U>(F: T -> U, f: U -> real, x: T)
    ensures Compose(F, f)(x) == f(F(x))
  {
  }

  /** Summing f over the images is summing f after F over the originals. */
  lemma {:induction false} SumMap<T, U>(s: seq<T>, F: T -> U, f: U -> real)
    ensures Sum(Map(s, F), f) == Sum(s, Compose(F, f))
  {
    if |s| > 0 {
      var n := |s|;
      SumMap(s[..n - 1], F, f);
      MapLast(s, F);
      SumLast(Map(s, F), f);
      SumLast(s, Compose(F, f));
    }
  }

  /** When f after F is k times h on every element, summing f over the images is k times summing h. */
  lemma SumMapScaled<T, U>(s: seq<T>, F: T -> U, f: U -> real, h: T -> real, k: real)
    requires forall i :: 0 <= i < |s| ==> f(F(s[i])) == k * h(s[i])
    ensures Sum(Map(s, F), f) == k * Sum(s, h)
  {
    forall i | 0 <= i < |s|
      ensures Compose(F, f)(s[i]) == k * h(s[i])
    {
      ComposeApply(F, f, s[i]);
    }
    SumScale(s, h, Compose(F, f), k);
    SumMap(s, F, f);
  }

  /** How many elements of s satisfy P. */
  function Count<T>(s: seq<T>, P: T -> bool): (n: nat)
    ensures n <= |s|
  {
    if |s| == 0 then 0 else Count(s[..|s| - 1], P) + (if P(s[|s| - 1]) then 1 else 0)
  }

  lemma {:induction false} CountConcat<T>(a: seq<T>, b: seq<T>, P: T -> bool)
    ensures Count(a + b, P) == Count(a, P) + Count(b, P)
  {
    if |b| == 0 {
      assert a + b == a;
    } else {
      var b' := b[..|b| - 1];
      assert (a + b)[..|a + b| - 1] == a + b';
      CountConcat(a, b', P);
    }
  }

  lemma {:induction false} CountNone<T>(s: seq<T>, P: T -> bool)
    requires forall i :: 0 <= i < |s| ==> !P(s[i])
    ensures Count(s, P) == 0
  {
    if |s| > 0 {
      CountNone(s[..|s| - 1], P);
    }
  }

  /**
   * Two term functions that agree except on the elements satisfying P, where
   * they differ by x, give sums that differ by x once per such element.
   */
  lemma {:induction false} SumDifferenceCount<T>(s: seq<T>, f: T -> real, g: T -> real, P: T -> bool, x: real)
    requires forall y :: P(y) ==> f(y) - g(y) == x
    requires forall y :: !P(y) ==> f(y) == g(y)
    ensures Sum(s, f) - Sum(s, g) == Count(s, P) as real * x
  {
    if |s| > 0 {
      var init := s[..|s| - 1];
      SumDifferenceCount(init, f, g, P, x);
      var y := s[|s| - 1];
      var a1, a2, b1, b2, c, cn := Sum(init, f), Sum(init, g), f(y), g(y), Count(init, P), Count(s, P);
      assert cn == c + (if P(y) then 1 else 0);
      assert Sum(s, f) == a1 + b1 && Sum(s, g) == a2 + b2;
      if P(y) {
        OneMore(a1, a2, b1, b2, c, cn, x);
      } else {
        NoMore(a1, a2, b1, b2, c, cn, x);
      }
    }
  }

  lemma OneMore(a1: real, a2: real, b1: real, b2: real, c: nat, cn: nat, x: real)
    requires a1 - a2 == c as real * x && b1 - b2 == x && cn == c + 1
    ensures (a1 + b1) - (a2 + b2) == cn as real * x
  {
  }

  lemma NoMore(a1: real, a2: real, b1: real, b2: real, c: nat, cn: nat, x: real)
    requires a1 - a2 == c as real * x && b1 == b2 && cn == c
    ensures (a1 + b1) - (a2 + b2) == cn as real * x
  {
  }
}
