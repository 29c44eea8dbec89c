/** `Array.prototype.filter`, which every list update of the admin pages and the
    instructor form goes through, and the facts about it those pages rely on. */
module Lists {

  /** The elements of `xs` that `keep` accepts, in their original order. */
  function Filter<T>(xs: seq<T>, keep: T -> bool): (r: seq<T>)
    ensures |r| <= |xs|
    ensures forall y :: y in r ==> y in xs && keep(y)
    ensures forall y :: y in xs && keep(y) ==> y in r
  {
    if xs == [] then []
    else if keep(xs[0]) then [xs[0]] + Filter(xs[1..], keep)
    else Filter(xs[1..], keep)
  }

  /** Filtering commutes with concatenation: the kept elements stay in their original order. */
  lemma {:induction false} FilterAppend<T>(a: seq<T>, b: seq<T>, keep: T -> bool)
    ensures Filter(a + b, keep) == Filter(a, keep) + Filter(b, keep)
  {
    if a == [] {
      assert a + b == b;
    } else {
      assert (a + b)[0] == a[0];
      assert (a + b)[1..] == a[1..] + b;
      FilterAppend(a[1..], b, keep);
    }
  }

  /** A list every element of which is kept is returned unchanged. */
  lemma {:induction false} FilterKeepsAll<T>(xs: seq<T>, keep: T -> bool)
    requires forall y :: y in xs ==> keep(y)
    ensures Filter(xs, keep) == xs
  {
    if xs != [] {
      assert forall y :: y in xs[1..] ==> y in xs;
      FilterKeepsAll(xs[1..], keep);
    }
  }

  /** Filtering twice with the same test is filtering once. */
  lemma FilterIdempotent<T>(xs: seq<T>, keep: T -> bool)
    ensures Filter(Filter(xs, keep), keep) == Filter(xs, keep)
  {
    FilterKeepsAll(Filter(xs, keep), keep);
  }

  /** Occurrence count of each kept value is unchanged; rejected values vanish. */
  lemma {:induction false} FilterCounts<T>(xs: seq<T>, keep: T -> bool, y: T)
    ensures multiset(Filter(xs, keep))[y] == if keep(y) then multiset(xs)[y] else 0
  {
    if xs != [] {
      assert xs == [xs[0]] + xs[1..];
      FilterCounts(xs[1..], keep, y);
    }
  }

  predicate NoDuplicates<T(==)>(xs: seq<T>)
  {
    forall i, j :: 0 <= i < j < |xs| ==> xs[i] != xs[j]
  }

  lemma {:induction false} NoDuplicatesByCount<T>(xs: seq<T>)
    ensures NoDuplicates(xs) <==> forall y :: multiset(xs)[y] <= 1
  {
    if xs != [] {
      assert xs == [xs[0]] + xs[1..];
      NoDuplicatesByCount(xs[1..]);
      if NoDuplicates(xs) {
        assert xs[0] !in xs[1..] by {
          forall k | 0 <= k < |xs[1..]| ensures xs[1..][k] != xs[0] { assert xs[1..][k] == xs[k + 1]; }
        }
      } else {
        var i, j :| 0 <= i < j < |xs| && xs[i] == xs[j];
        if i == 0 {
          assert xs[j] == xs[1..][j - 1];
          assert multiset(xs)[xs[0]] >= 2;
        } else {
          assert xs[1..][i - 1] == xs[i] && xs[1..][j - 1] == xs[j];
          assert !NoDuplicates(xs[1..]);
          var y :| multiset(xs[1..])[y] > 1;
          assert multiset(xs)[y] > 1;
        }
      }
    }
  }

  /** Filtering cannot create duplicates. */
  lemma FilterKeepsNoDuplicates<T>(xs: seq<T>, keep: T -> bool)
    requires NoDuplicates(xs)
    ensures NoDuplicates(Filter(xs, keep))
  {
    NoDuplicatesByCount(xs);
    NoDuplicatesByCount(Filter(xs, keep));
    forall y ensures multiset(Filter(xs, keep))[y] <= 1 { FilterCounts(xs, keep, y); }
  }
}
