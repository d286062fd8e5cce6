/** `sort_by { key }.reverse` as both reporters use it. Ruby's sort is not
    stable, so the model promises only what every run of it guarantees: the
    result is a permutation of the input in non-increasing key order. */
module Sorting {

  ghost predicate NonIncreasing<T>(xs: seq<T>, key: T -> real)
  {
    forall i, j :: 0 <= i < j < |xs| ==> key(xs[i]) >= key(xs[j])
  }

  /** Inserts `x` into a list already in non-increasing order. */
  function Insert<T>(x: T, ys: seq<T>, key: T -> real): (r: seq<T>)
    requires NonIncreasing(ys, key)
    ensures NonIncreasing(r, key)
    ensures multiset(r) == multiset(ys) + multiset{x}
    ensures |r| == |ys| + 1
    ensures |ys| > 0 ==> r[0] == x || r[0] == ys[0]
    ensures |ys| == 0 ==> r == [x]
  {
    if |ys| == 0 then [x]
    else if key(x) >= key(ys[0]) then [x] + ys
    else
      var rest := Insert(x, ys[1..], key);
      InsertBelowHead(x, ys, rest, key);
      [ys[0]] + rest
  }

  /** When `x` goes below the head, the head stays in front of the rest. */
  lemma InsertBelowHead<T>(x: T, ys: seq<T>, rest: seq<T>, key: T -> real)
    requires |ys| > 0 && NonIncreasing(ys, key) && key(x) < key(ys[0])
    requires NonIncreasing(rest, key)
    requires multiset(rest) == multiset(ys[1..]) + multiset{x}
    ensures NonIncreasing([ys[0]] + rest, key)
    ensures multiset([ys[0]] + rest) == multiset(ys) + multiset{x}
  {
    assert ys == [ys[0]] + ys[1..];
    forall j | 0 <= j < |rest| ensures key(ys[0]) >= key(rest[j]) {
      assert rest[j] in multiset(rest);
      if rest[j] != x {
        assert rest[j] in multiset(ys[1..]);
        var m :| 0 <= m < |ys[1..]| && ys[1..][m] == rest[j];
        assert ys[m + 1] == rest[j];
      }
    }
    var r := [ys[0]] + rest;
    forall i, j | 0 <= i < j < |r| ensures key(r[i]) >= key(r[j]) {
      if i > 0 {
        assert r[i] == rest[i - 1] && r[j] == rest[j - 1];
      } else {
        assert r[j] == rest[j - 1];
      }
    }
  }

  /** Descending insertion sort. */
  function SortDesc<T>(xs: seq<T>, key: T -> real): (r: seq<T>)
    ensures NonIncreasing(r, key)
    ensures multiset(r) == multiset(xs)
    ensures |r| == |xs|
  {
    if |xs| == 0 then []
    else
      assert xs == [xs[0]] + xs[1..];
      Insert(xs[0], SortDesc(xs[1..], key), key)
  }

  /** The images under `f` of the elements that pass `keep`, in order. */
  function Select<T(!new), U(!new)>(xs: seq<T>, keep: T -> bool, f: T -> U): (r: seq<U>)
    ensures forall y :: y in r <==> exists x :: x in xs && keep(x) && y == f(x)
    ensures |r| <= |xs|
  {
    if |xs| == 0 then []
    else
      assert xs == [xs[0]] + xs[1..];
      var rest := Select(xs[1..], keep, f);
      if keep(xs[0]) then [f(xs[0])] + rest else rest
  }

  /** Selecting from a list in non-increasing order keeps the order, when
      `f` carries each element's key over. */
  lemma {:induction false} SelectOrdered<T(!new), U(!new)>(xs: seq<T>, keep: T -> bool, f: T -> U, key: T -> real, key': U -> real)
    requires forall x :: key'(f(x)) == key(x)
    requires NonIncreasing(xs, key)
    ensures NonIncreasing(Select(xs, keep, f), key')
    decreases |xs|
  {
    if |xs| > 0 {
      var rest := Select(xs[1..], keep, f);
      assert NonIncreasing(xs[1..], key);
      SelectOrdered(xs[1..], keep, f, key, key');
      if keep(xs[0]) {
        var r := [f(xs[0])] + rest;
        forall i, j | 0 <= i < j < |r| ensures key'(r[i]) >= key'(r[j]) {
          assert r[j] == rest[j - 1];
          if i > 0 {
            assert r[i] == rest[i - 1];
          } else {
            assert r[j] in rest;
            var x :| x in xs[1..] && keep(x) && r[j] == f(x);
            var m :| 0 <= m < |xs[1..]| && xs[1..][m] == x;
            assert xs[m + 1] == x;
          }
        }
      }
    }
  }

  /** A permutation holds the same elements. */
  lemma PermutationMembers<T>(a: seq<T>, b: seq<T>)
    requires multiset(a) == multiset(b)
    ensures forall x :: x in a <==> x in b
  {
    forall x ensures x in a <==> x in b {
      assert x in a <==> x in multiset(a);
      assert x in b <==> x in multiset(b);
    }
  }
}
