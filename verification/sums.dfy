/** Ruby's `Array#sum` over real-valued projections, with the facts the
    aggregation proofs need: sums split over concatenation, follow a single
    replaced element, and do not depend on the order of the elements. */
module Sums {

  /** Sum of `f` over the elements of `xs`, taken left to right. */
  function SumOf<T>(xs: seq<T>, f: T -> real): real
  {
    if |xs| == 0 then 0.0 else f(xs[0]) + SumOf(xs[1..], f)
  }

  lemma {:induction false} SumConcat<T>(a: seq<T>, b: seq<T>, f: T -> real)
    ensures SumOf(a + b, f) == SumOf(a, f) + SumOf(b, f)
    decreases |a|
  {
    if |a| > 0 {
      assert (a + b)[1..] == a[1..] + b;
      SumConcat(a[1..], b, f);
    } else {
      assert a + b == b;
    }
  }

  /** Adding one element at the end adds its value. */
  lemma SumSnoc<T>(a: seq<T>, x: T, f: T -> real)
    ensures SumOf(a + [x], f) == SumOf(a, f) + f(x)
  {
    SumConcat(a, [x], f);
  }

  /** Replacing the element at `i` changes the sum by the difference. */
  lemma SumUpdate<T>(a: seq<T>, i: nat, x: T, f: T -> real)
    requires i < |a|
    ensures SumOf(a[i := x], f) == SumOf(a, f) - f(a[i]) + f(x)
  {
    assert a == a[..i] + [a[i]] + a[i+1..];
    assert a[i := x] == a[..i] + [x] + a[i+1..];
    SumConcat(a[..i] + [a[i]], a[i+1..], f);
    SumConcat(a[..i] + [x], a[i+1..], f);
    SumConcat(a[..i], [a[i]], f);
    SumConcat(a[..i], [x], f);
  }

  /** Taking out the element at `i` takes out its value. */
  lemma {:induction false} SumRemove<T>(b: seq<T>, i: nat, f: T -> real)
    requires i < |b|
    ensures SumOf(b, f) == f(b[i]) + SumOf(b[..i] + b[i+1..], f)
    decreases i
  {
    var rest := b[..i] + b[i+1..];
    if i == 0 {
      assert rest == b[1..];
    } else {
      var tail := b[1..];
      SumRemove(tail, i - 1, f);
      assert tail[i - 1] == b[i];
      assert rest[0] == b[0];
      assert rest[1..] == tail[..i - 1] + tail[i..];
    }
  }

  /** Matching the head of `a` with an equal element of `b` leaves two
      permutations of each other. */
  lemma RemoveMatched<T>(a: seq<T>, b: seq<T>, i: nat)
    requires |a| > 0 && i < |b| && b[i] == a[0]
    requires multiset(a) == multiset(b)
    ensures multiset(a[1..]) == multiset(b[..i] + b[i+1..])
  {
    assert a == [a[0]] + a[1..];
    assert b == b[..i] + [b[i]] + b[i+1..];
    calc {
      multiset(a[1..]);
      multiset(a) - multiset{a[0]};
      multiset(b) - multiset{b[i]};
      multiset(b[..i] + b[i+1..]);
    }
  }

  /** Sums are invariant under permutation. */
  lemma {:induction false} SumPermutation<T>(a: seq<T>, b: seq<T>, f: T -> real)
    requires multiset(a) == multiset(b)
    ensures SumOf(a, f) == SumOf(b, f)
    decreases |a|
  {
    if |a| == 0 {
      assert |b| == |multiset(b)| == 0;
    } else {
      assert a[0] in multiset(b);
      var i :| 0 <= i < |b| && b[i] == a[0];
      RemoveMatched(a, b, i);
      SumPermutation(a[1..], b[..i] + b[i+1..], f);
      SumRemove(b, i, f);
    }
  }

  /** Sums of two projections that agree on every element are equal. */
  lemma {:induction false} SumPointwise<T>(xs: seq<T>, f: T -> real, g: T -> real)
    requires forall i :: 0 <= i < |xs| ==> f(xs[i]) == g(xs[i])
    ensures SumOf(xs, f) == SumOf(xs, g)
    decreases |xs|
  {
    if |xs| > 0 {
      SumPointwise(xs[1..], f, g);
    }
  }
}
