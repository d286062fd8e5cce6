/** Super-category extraction in the WG report: the first capture group of
    the Ruby regular expression `/\((.*)\)\:/` applied to the category name,
    or nil when it does not match. Ruby returns the leftmost match, and the
    greedy `.*` (any character but a newline) makes it the longest one that
    starts there. */
module WgSuper {
  import opened Tables

  /** A `)` immediately followed by `:` at position `j`. */
  predicate CloseAt(s: string, j: int)
  {
    0 <= j && j + 1 < |s| && s[j] == ')' && s[j + 1] == ':'
  }

  /** The regular expression matches with its `(` at `i` and its `):` at `j`,
      so group 1 is `s[i+1..j]`, which holds no newline. */
  predicate MatchesAt(s: string, i: int, j: int)
  {
    0 <= i < j && CloseAt(s, j) && s[i] == '('
    && forall k :: i < k < j ==> s[k] != '\n'
  }

  /** The match Ruby reports: leftmost start, then the longest group. */
  ghost predicate LeftmostLongest(s: string, i: int, j: int)
  {
    && MatchesAt(s, i, j)
    && (forall i', j' :: MatchesAt(s, i', j') ==> i <= i')
    && (forall j' :: MatchesAt(s, i, j') ==> j' <= j)
  }

  /** End of the newline-free run starting at `k`. */
  function RunEnd(s: string, k: nat): (r: nat)
    requires k <= |s|
    ensures k <= r <= |s|
    ensures forall x :: k <= x < r ==> s[x] != '\n'
    ensures r < |s| ==> s[r] == '\n'
    decreases |s| - k
  {
    if k == |s| || s[k] == '\n' then k else RunEnd(s, k + 1)
  }

  /** The largest `j` with `lo < j <= hi` where `):` begins, if any. */
  function LastClose(s: string, lo: nat, hi: nat): (r: Option<nat>)
    ensures r.Some? ==> lo < r.value <= hi && CloseAt(s, r.value)
    ensures r.Some? ==> forall j :: r.value < j <= hi ==> !CloseAt(s, j)
    ensures r.None? ==> forall j :: lo < j <= hi ==> !CloseAt(s, j)
    decreases hi
  {
    if hi <= lo then None
    else if CloseAt(s, hi) then Some(hi)
    else LastClose(s, lo, hi - 1)
  }

  /** The longest match whose `(` is at `i`, if one exists. */
  function MatchFrom(s: string, i: nat): (r: Option<nat>)
    requires i < |s|
    ensures r.Some? ==> MatchesAt(s, i, r.value)
    ensures r.Some? ==> forall j :: MatchesAt(s, i, j) ==> j <= r.value
    ensures r.None? ==> forall j :: !MatchesAt(s, i, j)
  {
    if s[i] != '(' then None
    else
      var end := RunEnd(s, i + 1);
      LastClose(s, i, end)
  }

  /** Scans start positions from `i` on and returns the first match. */
  function FirstMatch(s: string, i: nat): (r: Option<(nat, nat)>)
    requires i <= |s|
    ensures r.Some? ==> MatchesAt(s, r.value.0, r.value.1) && i <= r.value.0
    ensures r.Some? ==> forall i', j' :: i <= i' && MatchesAt(s, i', j') ==> r.value.0 <= i'
    ensures r.Some? ==> forall j' :: MatchesAt(s, r.value.0, j') ==> j' <= r.value.1
    ensures r.None? ==> forall i', j' :: i <= i' ==> !MatchesAt(s, i', j')
    decreases |s| - i
  {
    if i == |s| then None
    else
      var m := MatchFrom(s, i);
      if m.Some? then Some((i, m.value)) else FirstMatch(s, i + 1)
  }

  /** `/\((.*)\)\:/.match(category).try(:[], 1)`. */
  function SuperCategory(category: string): Option<string>
  {
    var m := FirstMatch(category, 0);
    if m.Some? then Some(category[m.value.0 + 1..m.value.1]) else None
  }

  /** The super-category is group 1 of the match Ruby reports, and nil
      exactly when the expression matches nowhere. */
  lemma SuperCategoryMatch(category: string)
    ensures SuperCategory(category).Some? ==>
      exists i, j :: LeftmostLongest(category, i, j) && SuperCategory(category).value == category[i + 1..j]
    ensures SuperCategory(category).None? <==> forall i, j :: !MatchesAt(category, i, j)
  {
    var m := FirstMatch(category, 0);
    if m.Some? {
      assert LeftmostLongest(category, m.value.0, m.value.1);
    }
  }
}
