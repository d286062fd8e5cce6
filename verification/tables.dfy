/** Ruby's Hash as the engines use it: an insertion-ordered dictionary, here
    a list of key/value entries with distinct keys. `Put` is `h[k] = v`: it
    replaces the value in place when the key is present and appends an entry
    otherwise, so the iteration order is the order of first insertion. */
module Tables {
  import opened Sums

  datatype Option<T> = None | Some(value: T)
  {
    function GetOr(default: T): T
    {
      if Some? then value else default
    }
  }

  type Table<V> = seq<(string, V)>

  predicate DistinctKeys<V>(t: Table<V>)
  {
    forall i, j :: 0 <= i < j < |t| ==> t[i].0 != t[j].0
  }

  predicate HasKey<V>(t: Table<V>, k: string)
  {
    exists i :: 0 <= i < |t| && t[i].0 == k
  }

  /** Position of the first entry with key `k`, if any. */
  function Find<V>(t: Table<V>, k: string): (r: Option<nat>)
    ensures r.Some? ==> r.value < |t| && t[r.value].0 == k
    ensures r.Some? ==> forall j :: 0 <= j < r.value ==> t[j].0 != k
    ensures r.None? <==> !HasKey(t, k)
  {
    if |t| == 0 then None
    else if t[0].0 == k then Some(0)
    else
      var rest := Find(t[1..], k);
      assert HasKey(t[1..], k) ==> HasKey(t, k);
      assert HasKey(t, k) && t[0].0 != k ==> HasKey(t[1..], k) by {
        if HasKey(t, k) && t[0].0 != k {
          var i :| 0 <= i < |t| && t[i].0 == k;
          assert t[1..][i - 1].0 == k;
        }
      }
      if rest.None? then None else Some(rest.value + 1)
  }

  /** `Find` is determined by the first position holding the key. */
  lemma {:induction false} FindIs<V>(t: Table<V>, k: string, j: nat)
    requires j < |t| && t[j].0 == k
    requires forall l :: 0 <= l < j ==> t[l].0 != k
    ensures Find(t, k) == Some(j)
    decreases j
  {
    if j > 0 {
      FindIs(t[1..], k, j - 1);
    }
  }

  /** `Find` reads only the keys. */
  lemma FindSameKeys<V>(t: Table<V>, u: Table<V>, k: string)
    requires |t| == |u|
    requires forall i :: 0 <= i < |t| ==> t[i].0 == u[i].0
    ensures Find(t, k) == Find(u, k)
  {
    var f := Find(t, k);
    if f.Some? {
      FindIs(u, k, f.value);
    } else {
      assert forall i :: 0 <= i < |u| ==> u[i].0 != k by {
        forall i | 0 <= i < |u| ensures u[i].0 != k {
          assert t[i].0 == u[i].0;
        }
      }
    }
  }

  /** `h[k]`, with `None` for nil. */
  function Get<V>(t: Table<V>, k: string): (r: Option<V>)
    ensures r.Some? <==> HasKey(t, k)
  {
    var i := Find(t, k);
    if i.Some? then Some(t[i.value].1) else None
  }

  /** In a table with distinct keys, the entry at position `i` is what `Get`
      reads for its key. */
  lemma GetAt<V>(t: Table<V>, i: nat)
    requires DistinctKeys(t) && i < |t|
    ensures Get(t, t[i].0) == Some(t[i].1)
  {
  }

  /** A value `Get` reads is stored in the table under its key. */
  lemma GetMember<V>(t: Table<V>, k: string)
    requires Get(t, k).Some?
    ensures (k, Get(t, k).value) in t
  {
    var i := Find(t, k).value;
    assert t[i] == (k, Get(t, k).value);
  }

  /** `h[k] = v`. */
  function Put<V>(t: Table<V>, k: string, v: V): (r: Table<V>)
    ensures Get(r, k) == Some(v)
    ensures forall k' :: k' != k ==> Get(r, k') == Get(t, k')
    ensures DistinctKeys(t) ==> DistinctKeys(r)
  {
    var i := Find(t, k);
    if i.Some? then
      Replaced(t, i.value, k, v);
      t[i.value := (k, v)]
    else
      Appended(t, k, v);
      t + [(k, v)]
  }

  /** `Put` on a present key: the value changes in place. */
  lemma Replaced<V>(t: Table<V>, i: nat, k: string, v: V)
    requires Find(t, k) == Some(i)
    ensures var r := t[i := (k, v)];
      && Get(r, k) == Some(v)
      && (forall k' :: Find(r, k') == Find(t, k'))
      && (DistinctKeys(t) ==> DistinctKeys(r))
  {
    var r := t[i := (k, v)];
    forall k' ensures Find(r, k') == Find(t, k') {
      FindSameKeys(r, t, k');
    }
  }

  /** `Put` on a missing key: a new entry at the end. */
  lemma Appended<V>(t: Table<V>, k: string, v: V)
    requires !HasKey(t, k)
    ensures var r := t + [(k, v)];
      && Get(r, k) == Some(v)
      && (forall k' :: k' != k ==> Find(r, k') == Find(t, k'))
      && (DistinctKeys(t) ==> DistinctKeys(r))
  {
    var r := t + [(k, v)];
    assert r[|t|].0 == k;
    FindIs(r, k, |t|);
    forall k' | k' != k ensures Find(r, k') == Find(t, k') {
      var f := Find(t, k');
      if f.Some? {
        FindIs(r, k', f.value);
      } else {
        forall j | 0 <= j < |r| ensures r[j].0 != k' {
          if j < |t| {
            assert r[j] == t[j];
          }
        }
      }
    }
    if DistinctKeys(t) {
      forall a, b | 0 <= a < b < |r| ensures r[a].0 != r[b].0 {
        if b == |t| {
          assert r[a] == t[a];
        } else {
          assert r[a] == t[a] && r[b] == t[b];
        }
      }
    }
  }

  /** The sum of a projection over a table after `Put`: the old entry's
      contribution (if any) is replaced by the new one. */
  lemma SumPut<V>(t: Table<V>, k: string, v: V, f: ((string, V)) -> real)
    ensures SumOf(Put(t, k, v), f)
         == SumOf(t, f) + f((k, v)) - (if Get(t, k).Some? then f((k, Get(t, k).value)) else 0.0)
  {
    var i := Find(t, k);
    if i.Some? {
      SumUpdate(t, i.value, (k, v), f);
    } else {
      SumSnoc(t, (k, v), f);
    }
  }

  /** An element occurring at least twice has two positions. */
  lemma {:induction false} TwoPositions<V>(a: Table<V>, x: (string, V))
    requires multiset(a)[x] >= 2
    ensures exists p, q :: 0 <= p < q < |a| && a[p] == x && a[q] == x
    decreases |a|
  {
    assert a == [a[0]] + a[1..];
    if a[0] == x {
      assert x in multiset(a[1..]);
      var q :| 0 <= q < |a[1..]| && a[1..][q] == x;
      assert a[q + 1] == x;
    } else {
      TwoPositions(a[1..], x);
      var p, q :| 0 <= p < q < |a[1..]| && a[1..][p] == x && a[1..][q] == x;
      assert a[p + 1] == x && a[q + 1] == x;
    }
  }

  /** Reordering a table keeps its keys distinct. */
  lemma DistinctPermutation<V>(a: Table<V>, b: Table<V>)
    requires DistinctKeys(a)
    requires multiset(a) == multiset(b)
    ensures DistinctKeys(b)
  {
    forall i, j | 0 <= i < j < |b| ensures b[i].0 != b[j].0 {
      assert b[i] in multiset(a) && b[j] in multiset(a);
      var p :| 0 <= p < |a| && a[p] == b[i];
      var q :| 0 <= q < |a| && a[q] == b[j];
      if b[i] == b[j] {
        assert b == b[..j] + b[j..];
        assert b[i] in b[..j] && b[j] == b[j..][0];
        assert multiset(b)[b[i]] == multiset(b[..j])[b[i]] + multiset(b[j..])[b[i]];
        TwoPositions(a, b[i]);
        assert false;
      }
    }
  }

  /** Reordering a table with distinct keys changes no lookup. */
  lemma GetPermutation<V>(a: Table<V>, b: Table<V>, k: string)
    requires DistinctKeys(a)
    requires multiset(a) == multiset(b)
    ensures Get(a, k) == Get(b, k)
  {
    DistinctPermutation(a, b);
    if HasKey(a, k) {
      var i :| 0 <= i < |a| && a[i].0 == k;
      assert a[i] in multiset(b);
      var j :| 0 <= j < |b| && b[j] == a[i];
      GetAt(a, i);
      GetAt(b, j);
    }
    if HasKey(b, k) {
      var j :| 0 <= j < |b| && b[j].0 == k;
      assert b[j] in multiset(a);
      var i :| 0 <= i < |a| && a[i] == b[j];
      GetAt(a, i);
      GetAt(b, j);
    }
  }
}
