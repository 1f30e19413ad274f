/**
 * The ranking step of the final report: the stored results are split into
 * passed and failed tickers, each part is sorted by score from highest to
 * lowest with ties left in screening order (a stable sort), and the first
 * few of each part are shown.
 */
module Ranking {

  import opened Results

  /** How many passed and failed tickers the report shows. */
  const TopPassedCount: nat := 5
  const TopFailedCount: nat := 3

  // ---------------------------------------------------------------------------
  // Partition
  // ---------------------------------------------------------------------------

  /** The results whose pass flag is `passes`, in screening order. */
  function Selected(rs: seq<ScreenResult>, passes: bool): (out: seq<ScreenResult>)
    ensures forall i :: 0 <= i < |out| ==> out[i].passes == passes
    ensures |out| <= |rs|
  {
    if rs == [] then []
    else
      var last := rs[|rs| - 1];
      Selected(rs[..|rs| - 1], passes) + (if last.passes == passes then [last] else [])
  }

  /** Every result lands in exactly one of the two parts. */
  lemma {:induction false} PartitionIsExact(rs: seq<ScreenResult>)
    ensures multiset(Selected(rs, true)) + multiset(Selected(rs, false)) == multiset(rs)
    ensures |Selected(rs, true)| + |Selected(rs, false)| == |rs|
  {
    if rs != [] {
      var init, last := rs[..|rs| - 1], rs[|rs| - 1];
      PartitionIsExact(init);
      assert rs == init + [last];
    }
  }

  // ---------------------------------------------------------------------------
  // Stable sort by score, highest first
  // ---------------------------------------------------------------------------

  /** Scores never increase along the sequence. */
  predicate SortedByScore(s: seq<ScreenResult>)
  {
    forall i, j :: 0 <= i < j < |s| ==> s[i].score >= s[j].score
  }

  /**
   * Inserts `x` after every element scoring at least as much as it: into a
   * sequence sorted highest first, `x` goes behind its equals.
   */
  function InsertByScore(s: seq<ScreenResult>, x: ScreenResult): (r: seq<ScreenResult>)
    ensures |r| == |s| + 1
  {
    if s == [] || s[|s| - 1].score >= x.score then s + [x]
    else InsertByScore(s[..|s| - 1], x) + [s[|s| - 1]]
  }

  /** Inserting adds exactly `x` and loses nothing. */
  lemma {:induction false} InsertIsPermutation(s: seq<ScreenResult>, x: ScreenResult)
    ensures multiset(InsertByScore(s, x)) == multiset(s) + multiset{x}
  {
    if s != [] && s[|s| - 1].score < x.score {
      var init, last := s[..|s| - 1], s[|s| - 1];
      InsertIsPermutation(init, x);
      assert s == init + [last];
    }
  }

  /**
   * The sequence sorted by score, highest first, stably: the result of
   * inserting each element in turn, in order, behind its equals.
   */
  function SortByScore(s: seq<ScreenResult>): (r: seq<ScreenResult>)
    ensures multiset(r) == multiset(s)
    ensures SortedByScore(r)
  {
    if s == [] then []
    else
      var init, last := s[..|s| - 1], s[|s| - 1];
      assert s == init + [last];
      var sorted := SortByScore(init);
      InsertKeepsSorted(sorted, last);
      InsertIsPermutation(sorted, last);
      InsertByScore(sorted, last)
  }

  lemma {:induction false} InsertKeepsSorted(s: seq<ScreenResult>, x: ScreenResult)
    requires SortedByScore(s)
    ensures SortedByScore(InsertByScore(s, x))
  {
    if s == [] || s[|s| - 1].score >= x.score {
      var r := s + [x];
      forall i, j | 0 <= i < j < |r|
        ensures r[i].score >= r[j].score
      {
        if j == |s| {
          assert r[i].score >= s[|s| - 1].score;
        }
      }
    } else {
      var init, last := s[..|s| - 1], s[|s| - 1];
      InsertKeepsSorted(init, x);
      var u := InsertByScore(init, x);
      InsertIsPermutation(init, x);
      forall i | 0 <= i < |u|
        ensures u[i].score >= last.score
      {
        assert u[i] in multiset(u);
        if u[i] != x {
          assert u[i] in multiset(init);
          var k :| 0 <= k < |init| && init[k] == u[i];
          assert s[k] == u[i];
        }
      }
    }
  }

  /** The elements scoring exactly `k`, in order. */
  function WithScore(s: seq<ScreenResult>, k: int): (out: seq<ScreenResult>)
    ensures forall i :: 0 <= i < |out| ==> out[i].score == k
    ensures |out| <= |s|
  {
    if s == [] then []
    else
      var last := s[|s| - 1];
      WithScore(s[..|s| - 1], k) + (if last.score == k then [last] else [])
  }

  lemma {:induction false} InsertIsStable(s: seq<ScreenResult>, x: ScreenResult, k: int)
    ensures WithScore(InsertByScore(s, x), k) == WithScore(s, k) + (if x.score == k then [x] else [])
  {
    if s == [] || s[|s| - 1].score >= x.score {
      assert (s + [x])[..|s|] == s;
    } else {
      var init, last := s[..|s| - 1], s[|s| - 1];
      var u := InsertByScore(init, x);
      InsertIsStable(init, x, k);
      assert (u + [last])[..|u|] == u;
    }
  }

  /**
   * Stability: among equal scores the sorted sequence keeps the input
   * order, since each score's elements appear in it exactly as in the input.
   */
  lemma {:induction false} SortIsStable(s: seq<ScreenResult>, k: int)
    ensures WithScore(SortByScore(s), k) == WithScore(s, k)
  {
    if s != [] {
      var init, last := s[..|s| - 1], s[|s| - 1];
      SortIsStable(init, k);
      InsertIsStable(SortByScore(init), last, k);
    }
  }

  // ---------------------------------------------------------------------------
  // Top N
  // ---------------------------------------------------------------------------

  /** The first `n` elements, or all of them when there are fewer (a slice `[:n]`). */
  function Top(s: seq<ScreenResult>, n: nat): (t: seq<ScreenResult>)
    ensures |t| == if |s| < n then |s| else n
    ensures forall i :: 0 <= i < |t| ==> t[i] == s[i]
  {
    if |s| <= n then s else s[..n]
  }

  /** The part of `rs` with pass flag `passes`, best first, cut to `n`. */
  function Ranked(rs: seq<ScreenResult>, passes: bool, n: nat): (t: seq<ScreenResult>)
    ensures |t| <= n
    ensures forall i :: 0 <= i < |t| ==> t[i] in rs && t[i].passes == passes
    ensures SortedByScore(t)
  {
    var sorted := SortByScore(Selected(rs, passes));
    var t := Top(sorted, n);
    forall i | 0 <= i < |t|
      ensures t[i] in rs && t[i].passes == passes
    {
      assert t[i] == sorted[i];
      PartitionIsExact(rs);
      assert sorted[i] in multiset(Selected(rs, passes));
      assert multiset(Selected(rs, passes)) <= multiset(rs);
      assert sorted[i] in multiset(rs);
    }
    t
  }

  /** In a sequence sorted highest first, an element left out of the first `n` scores no more than any kept one. */
  lemma TopIsBest(sorted: seq<ScreenResult>, n: nat, j: nat)
    requires SortedByScore(sorted) && j < |sorted|
    ensures sorted[j] in Top(sorted, n) || forall t :: t in Top(sorted, n) ==> t.score >= sorted[j].score
  {
    var top := Top(sorted, n);
    if j < |top| {
      assert top[j] == sorted[j];
    } else {
      forall t | t in top
        ensures t.score >= sorted[j].score
      {
        var i :| 0 <= i < |top| && top[i] == t;
        assert sorted[i] == t;
      }
    }
  }

  /** A result with pass flag `passes` is in that part of the partition. */
  lemma InItsPart(rs: seq<ScreenResult>, passes: bool, r: ScreenResult)
    requires r in rs && r.passes == passes
    ensures r in multiset(Selected(rs, passes))
  {
    PartitionIsExact(rs);
    assert r in multiset(rs);
    assert r !in Selected(rs, !passes);
  }

  /**
   * The report never leaves out a better ticker: any result with the right
   * pass flag is either shown or scores no more than every shown one, and
   * fewer than `n` are shown only when the part has fewer than `n`.
   */
  lemma RankedIsBest(rs: seq<ScreenResult>, passes: bool, n: nat, r: ScreenResult)
    requires r in rs && r.passes == passes
    ensures r in Ranked(rs, passes, n) || forall t :: t in Ranked(rs, passes, n) ==> t.score >= r.score
    ensures |Ranked(rs, passes, n)| == if |Selected(rs, passes)| < n then |Selected(rs, passes)| else n
  {
    var part := Selected(rs, passes);
    var sorted := SortByScore(part);
    assert |sorted| == |multiset(sorted)| == |multiset(part)| == |part|;
    InItsPart(rs, passes, r);
    assert r in multiset(sorted);
    var j :| 0 <= j < |sorted| && sorted[j] == r;
    TopIsBest(sorted, n, j);
  }

  // ---------------------------------------------------------------------------
  // In-place sort
  // ---------------------------------------------------------------------------

  /** Sorts the array by score, highest first, keeping ties in their order. */
  method SortByScoreDescending(a: array<ScreenResult>)
    modifies a
    ensures a[..] == SortByScore(old(a[..]))
  {
    var i := 0;
    while i < a.Length
      invariant 0 <= i <= a.Length
      invariant a[..i] == SortByScore(old(a[..i]))
      invariant forall k :: i <= k < a.Length ==> a[k] == old(a[k])
    {
      InsertLast(a, i);
      assert old(a[..i + 1])[..i] == old(a[..i]);
      i := i + 1;
    }
    assert a[..] == a[..a.Length];
    assert old(a[..]) == old(a[..a.Length]);
  }

  /** Moves `a[i]` back behind its equals within the first `i + 1` slots. */
  method InsertLast(a: array<ScreenResult>, i: nat)
    requires i < a.Length
    modifies a
    ensures a[..i + 1] == InsertByScore(old(a[..i]), old(a[i]))
    ensures forall k :: i < k < a.Length ==> a[k] == old(a[k])
  {
    var x := a[i];
    ghost var sorted := a[..i];
    var j := i;
    while j > 0 && a[j - 1].score < x.score
      invariant 0 <= j <= i
      invariant forall k :: 0 <= k < j ==> a[k] == sorted[k]
      invariant forall k :: j < k <= i ==> a[k] == sorted[k - 1]
      invariant forall k :: j <= k < i ==> sorted[k].score < x.score
      invariant forall k :: i < k < a.Length ==> a[k] == old(a[k])
    {
      a[j] := a[j - 1];
      j := j - 1;
    }
    a[j] := x;
    InsertAt(sorted, x, j);
    PlacedAt(a[..i + 1], sorted, x, j);
  }

  /** The array prefix the shifting loop leaves behind, read as a sequence. */
  lemma PlacedAt(t: seq<ScreenResult>, s: seq<ScreenResult>, x: ScreenResult, j: nat)
    requires |t| == |s| + 1 && j <= |s| && t[j] == x
    requires forall k :: 0 <= k < j ==> t[k] == s[k]
    requires forall k :: j < k < |t| ==> t[k] == s[k - 1]
    ensures t == s[..j] + [x] + s[j..]
  {
    forall k | 0 <= k < |t|
      ensures t[k] == (s[..j] + [x] + s[j..])[k]
    {
    }
  }

  /**
   * Inserting `x` puts it right behind the last element scoring at least as
   * much, when everything after that point scores less.
   */
  lemma {:induction false} InsertAt(s: seq<ScreenResult>, x: ScreenResult, p: nat)
    requires p <= |s| && (p == 0 || s[p - 1].score >= x.score)
    requires forall k :: p <= k < |s| ==> s[k].score < x.score
    ensures InsertByScore(s, x) == s[..p] + [x] + s[p..]
    decreases |s|
  {
    if |s| == p {
      assert s[..p] == s && s[p..] == [];
    } else {
      var init, last := s[..|s| - 1], s[|s| - 1];
      assert last.score < x.score;
      assert InsertByScore(s, x) == InsertByScore(init, x) + [last];
      InsertAt(init, x, p);
      calc {
        InsertByScore(s, x);
        InsertByScore(init, x) + [last];
        init[..p] + [x] + init[p..] + [last];
        { assert init[..p] == s[..p];
          assert init[p..] + [last] == s[p..] by {
            forall k | 0 <= k < |s| - p
              ensures (init[p..] + [last])[k] == s[p..][k]
            {
            }
          }
        }
        s[..p] + [x] + s[p..];
      }
    }
  }
}
