// The engine's in-place quickSort of an array of scored pairs by their
// score at one position, highest first (Engine.quickSort, partition and
// swap); a missing score counts as -1.
module PairSort {
  import opened Pairs

  /** swap: exchanges two cells. */
  method Swap(a: array<Scored>, i: int, j: int)
    requires 0 <= i < a.Length && 0 <= j < a.Length
    modifies a
    ensures a[..] == old(a[..])[i := old(a[j])][j := old(a[i])]
  {
    a[i], a[j] := a[j], a[i];
  }

  /** `t` is `s` with the cells of [lo, hi) rearranged and nothing else
    * changed. */
  ghost predicate Rearranged(s: seq<Scored>, t: seq<Scored>, lo: int, hi: int)
  {
    0 <= lo <= hi <= |s| == |t| && s[..lo] == t[..lo] && s[hi..] == t[hi..] &&
    multiset(s[lo..hi]) == multiset(t[lo..hi])
  }

  /** A rearrangement of a sub-range is one of any range around it. */
  lemma RearrangedWiden(s: seq<Scored>, t: seq<Scored>, lo: int, hi: int, lo2: int, hi2: int)
    requires Rearranged(s, t, lo, hi) && 0 <= lo2 <= lo && hi <= hi2 <= |s|
    ensures Rearranged(s, t, lo2, hi2)
  {
    assert s[lo2..hi2] == s[lo2..lo] + s[lo..hi] + s[hi..hi2];
    assert t[lo2..hi2] == t[lo2..lo] + t[lo..hi] + t[hi..hi2];
    assert s[lo2..lo] == s[..lo][lo2..] && t[lo2..lo] == t[..lo][lo2..];
    assert s[hi..hi2] == s[hi..][..hi2 - hi] && t[hi..hi2] == t[hi..][..hi2 - hi];
    assert s[..lo2] == s[..lo][..lo2] && t[..lo2] == t[..lo][..lo2];
    assert s[hi2..] == s[hi..][hi2 - hi..] && t[hi2..] == t[hi..][hi2 - hi..];
  }

  /** Rearrangements of one range compose. */
  lemma RearrangedTrans(s: seq<Scored>, t: seq<Scored>, u: seq<Scored>, lo: int, hi: int)
    requires Rearranged(s, t, lo, hi) && Rearranged(t, u, lo, hi)
    ensures Rearranged(s, u, lo, hi)
  {
  }

  /** Exchanging two cells of a range rearranges it. */
  lemma SwapInSegment(s: seq<Scored>, i: int, j: int, lo: int, hi: int)
    requires 0 <= lo <= i < hi <= |s| && lo <= j < hi
    ensures Rearranged(s, s[i := s[j]][j := s[i]], lo, hi)
  {
    var t := s[i := s[j]][j := s[i]];
    assert t[lo..hi] == s[lo..hi][i - lo := s[j]][j - lo := s[i]];
    assert t[..lo] == s[..lo];
    assert t[hi..] == s[hi..];
  }

  /** Exchanging two cells of the rearranged range of `s` keeps `s0`
    * rearranged there. */
  lemma SwapRearranges(s0: seq<Scored>, s: seq<Scored>, i: int, j: int, lo: int, hi: int)
    requires Rearranged(s0, s, lo, hi) && lo <= i < hi && lo <= j < hi
    ensures Rearranged(s0, s[i := s[j]][j := s[i]], lo, hi)
  {
    SwapInSegment(s, i, j, lo, hi);
    RearrangedTrans(s0, s, s[i := s[j]][j := s[i]], lo, hi);
  }

  /** Cells [low, j] score above `v` at `l`, cells (j, i) do not. */
  ghost predicate Sides(s: seq<Scored>, low: int, j: int, i: int, l: nat, v: real)
  {
    (forall k :: low <= k <= j && 0 <= k < |s| ==> ScoreAt(l, s[k]) > v) &&
    (forall k :: j < k < i && 0 <= k < |s| ==> ScoreAt(l, s[k]) <= v)
  }

  /** Moving a cell that scores above `v` to the end of the upper side
    * grows both sides by one. */
  lemma SidesSwap(s: seq<Scored>, low: int, j: int, i: int, l: nat, v: real)
    requires 0 <= low && low - 1 <= j < i < |s| && Sides(s, low, j, i, l, v) && ScoreAt(l, s[i]) > v
    ensures Sides(s[j + 1 := s[i]][i := s[j + 1]], low, j + 1, i + 1, l, v)
  {
    var t := s[j + 1 := s[i]][i := s[j + 1]];
    forall k | low <= k <= j + 1 && 0 <= k < |t| ensures ScoreAt(l, t[k]) > v {
      if k <= j {
        assert t[k] == s[k];
      }
    }
    forall k | j + 1 < k < i + 1 && 0 <= k < |t| ensures ScoreAt(l, t[k]) <= v {
      if k < i {
        assert t[k] == s[k];
      } else {
        assert t[k] == s[j + 1];
      }
    }
  }

  /** Cell `p` of [low, high] holds a pivot: the cells before it score
    * strictly more at `l`, the cells after it do not. */
  ghost predicate PivotSplit(s: seq<Scored>, low: int, p: int, high: int, l: nat)
    requires 0 <= low <= p <= high < |s|
  {
    (forall k :: low <= k < p ==> ScoreAt(l, s[k]) > ScoreAt(l, s[p])) &&
    (forall k :: p < k <= high ==> ScoreAt(l, s[k]) <= ScoreAt(l, s[p]))
  }

  /** Exchanging the pivot, last in the range, with the first cell of the
    * lower side puts it between the two sides. */
  lemma SidesPivot(s: seq<Scored>, low: int, j: int, high: int, l: nat)
    requires 0 <= low && low - 1 <= j < high < |s| && Sides(s, low, j, high, l, ScoreAt(l, s[high]))
    ensures PivotSplit(s[j + 1 := s[high]][high := s[j + 1]], low, j + 1, high, l)
  {
    var t := s[j + 1 := s[high]][high := s[j + 1]];
    forall k | low <= k < j + 1 ensures ScoreAt(l, t[k]) > ScoreAt(l, t[j + 1]) {
      assert t[k] == s[k];
    }
    forall k | j + 1 < k <= high ensures ScoreAt(l, t[k]) <= ScoreAt(l, t[j + 1]) {
      if k < high {
        assert t[k] == s[k];
      }
    }
  }

  /** The final exchange puts the pivot between the two sides. */
  lemma PartitionEnd(s0: seq<Scored>, s: seq<Scored>, low: int, high: int, j: int, l: nat)
    requires 0 <= low <= high < |s0| && low - 1 <= j < high
    requires Rearranged(s0, s, low, high + 1) && s[high] == s0[high]
    requires Sides(s, low, j, high, l, ScoreAt(l, s0[high]))
    ensures var t := s[j + 1 := s[high]][high := s[j + 1]];
      Rearranged(s0, t, low, high + 1) && PivotSplit(t, low, j + 1, high, l)
  {
    SwapRearranges(s0, s, j + 1, high, low, high + 1);
    SidesPivot(s, low, j, high, l);
  }

  /** The state of partition's loop: [low, high] of `s0` rearranged with the
    * pivot cell still last, cells [low, j] above the pivot's score and cells
    * (j, i) not. */
  ghost predicate Partitioning(s0: seq<Scored>, s: seq<Scored>, low: int, high: int, j: int, i: int, l: nat)
  {
    0 <= low <= i <= high < |s0| && low - 1 <= j < i &&
    Rearranged(s0, s, low, high + 1) && s[high] == s0[high] && Sides(s, low, j, i, l, ScoreAt(l, s0[high]))
  }

  /** The loop's state holds before the first pass. */
  lemma PartitioningInit(s0: seq<Scored>, low: int, high: int, l: nat)
    requires 0 <= low <= high < |s0|
    ensures Partitioning(s0, s0, low, high, low - 1, low, l)
  {
  }

  /** A cell scoring above the pivot, moved to the end of the upper side,
    * keeps the loop's state. */
  lemma PartitioningSwap(s0: seq<Scored>, s: seq<Scored>, low: int, high: int, j: int, i: int, l: nat)
    requires Partitioning(s0, s, low, high, j, i, l) && i < high && ScoreAt(l, s[i]) > ScoreAt(l, s0[high])
    ensures Partitioning(s0, s[j + 1 := s[i]][i := s[j + 1]], low, high, j + 1, i + 1, l)
  {
    SwapRearranges(s0, s, j + 1, i, low, high + 1);
    SidesSwap(s, low, j, i, l, ScoreAt(l, s0[high]));
  }

  /** A cell not scoring above the pivot joins the lower side where it is. */
  lemma PartitioningKeep(s0: seq<Scored>, s: seq<Scored>, low: int, high: int, j: int, i: int, l: nat)
    requires Partitioning(s0, s, low, high, j, i, l) && i < high && ScoreAt(l, s[i]) <= ScoreAt(l, s0[high])
    ensures Partitioning(s0, s, low, high, j, i + 1, l)
  {
  }

  /** One pass of partition's loop, against the pivot's score `pivot`. */
  method PartitionStep(a: array<Scored>, ghost s0: seq<Scored>, low: int, high: int, j: int, i: int, l: nat,
                       pivot: real)
    returns (j': int)
    requires a.Length == |s0| && Partitioning(s0, a[..], low, high, j, i, l) && i < high
    requires pivot == ScoreAt(l, s0[high])
    modifies a
    ensures Partitioning(s0, a[..], low, high, j', i + 1, l)
  {
    j' := j;
    if ScoreAt(l, a[i]) > pivot {
      ghost var s := a[..];
      PartitioningSwap(s0, s, low, high, j, i, l);
      Swap(a, j + 1, i);
      assert a[..] == s[j + 1 := s[i]][i := s[j + 1]];
      j' := j + 1;
    } else {
      PartitioningKeep(s0, a[..], low, high, j, i, l);
    }
  }

  /** The final exchange of partition, once every cell before the pivot has
    * been placed. */
  method PartitionFinish(a: array<Scored>, ghost s0: seq<Scored>, low: int, high: int, j: int, l: nat)
    returns (p: int)
    requires a.Length == |s0| && Partitioning(s0, a[..], low, high, j, high, l)
    modifies a
    ensures low <= p <= high
    ensures Rearranged(s0, a[..], low, high + 1) && PivotSplit(a[..], low, p, high, l)
  {
    PartitionEnd(s0, a[..], low, high, j, l);
    Swap(a, j + 1, high);
    p := j + 1;
  }

  /** partition: puts the pivot (the last cell) where every cell before it,
    * within the range, scores strictly more at `l` and every cell after it
    * does not; a missing score counts as -1. */
  method Partition(a: array<Scored>, low: int, high: int, l: nat) returns (p: int)
    requires 0 <= low <= high < a.Length
    modifies a
    ensures low <= p <= high
    ensures Rearranged(old(a[..]), a[..], low, high + 1) && PivotSplit(a[..], low, p, high, l)
  {
    ghost var s0 := a[..];
    PartitioningInit(s0, low, high, l);
    var pivot := ScoreAt(l, a[high]);
    var j := low - 1;
    var i := low;
    while i <= high - 1
      invariant Partitioning(s0, a[..], low, high, j, i, l)
    {
      j := PartitionStep(a, s0, low, high, j, i, l, pivot);
      i := i + 1;
    }
    p := PartitionFinish(a, s0, low, high, j, l);
  }

  /** Contents of equal multisets share every bound on their scores. */
  lemma BoundCarries(s: seq<Scored>, t: seq<Scored>, l: nat, v: real, above: bool)
    requires multiset(s) == multiset(t)
    requires forall x :: x in s ==> if above then ScoreAt(l, x) > v else ScoreAt(l, x) <= v
    ensures forall x :: x in t ==> if above then ScoreAt(l, x) > v else ScoreAt(l, x) <= v
  {
    forall x | x in t ensures if above then ScoreAt(l, x) > v else ScoreAt(l, x) <= v {
      assert x in multiset(t);
      assert x in s;
    }
  }

  /** Cells [lo, hi] of `s` are in non-increasing score order at `l`. */
  ghost predicate SortedRange(s: seq<Scored>, lo: int, hi: int, l: nat)
    requires 0 <= lo && hi < |s|
  {
    forall i, j :: lo <= i < j <= hi ==> ScoreAt(l, s[i]) >= ScoreAt(l, s[j])
  }

  /** quickSort: sorts the range [low, high] in place, highest score at `l`
    * first, and touches no cell outside it. */
  method QuickSort(a: array<Scored>, low: int, high: int, l: nat)
    requires 0 <= low <= high + 1 <= a.Length
    modifies a
    ensures Rearranged(old(a[..]), a[..], low, high + 1)
    ensures SortedRange(a[..], low, high, l)
    decreases high - low
  {
    if low < high {
      ghost var s0 := a[..];
      var p := Partition(a, low, high, l);
      ghost var s1 := a[..];
      QuickSort(a, low, p - 1, l);
      ghost var s2 := a[..];
      QuickSort(a, p + 1, high, l);
      ghost var s3 := a[..];
      QuickSortJoin(s0, s1, s2, s3, low, p, high, l);
    }
  }

  /** The two recursive sorts around the pivot put the range in order. */
  lemma QuickSortJoin(s0: seq<Scored>, s1: seq<Scored>, s2: seq<Scored>, s3: seq<Scored>,
                      low: int, p: int, high: int, l: nat)
    requires 0 <= low <= p <= high < |s0|
    requires Rearranged(s0, s1, low, high + 1)
    requires PivotSplit(s1, low, p, high, l)
    requires Rearranged(s1, s2, low, p) && Rearranged(s2, s3, p + 1, high + 1)
    requires SortedRange(s2, low, p - 1, l) && SortedRange(s3, p + 1, high, l)
    ensures Rearranged(s0, s3, low, high + 1) && SortedRange(s3, low, high, l)
  {
    RearrangedWiden(s1, s2, low, p, low, high + 1);
    RearrangedWiden(s2, s3, p + 1, high + 1, low, high + 1);
    RearrangedTrans(s0, s1, s2, low, high + 1);
    RearrangedTrans(s0, s2, s3, low, high + 1);
    assert s3[p] == s2[p] == s1[p] by {
      assert s2[p] == s2[p..][0] && s1[p] == s1[p..][0];
      assert s3[p] == s3[..p + 1][p] && s2[p] == s2[..p + 1][p];
    }
    var v := ScoreAt(l, s1[p]);
    SortedJoin(s1, s2, s3, low, p, high, l, v);
  }

  lemma SortedJoin(s1: seq<Scored>, s2: seq<Scored>, s3: seq<Scored>, low: int, p: int, high: int, l: nat, v: real)
    requires 0 <= low <= p <= high < |s1| == |s2| == |s3|
    requires forall k :: low <= k < p ==> ScoreAt(l, s1[k]) > v
    requires forall k :: p < k <= high ==> ScoreAt(l, s1[k]) <= v
    requires ScoreAt(l, s3[p]) == v
    requires multiset(s1[low..p]) == multiset(s2[low..p]) && s2[p + 1..] == s1[p + 1..]
    requires multiset(s2[p + 1..high + 1]) == multiset(s3[p + 1..high + 1]) && s3[..p + 1] == s2[..p + 1]
    requires SortedRange(s2, low, p - 1, l) && SortedRange(s3, p + 1, high, l)
    ensures forall i, j :: low <= i < j <= high ==> ScoreAt(l, s3[i]) >= ScoreAt(l, s3[j])
  {
    BoundCarries(s1[low..p], s2[low..p], l, v, true);
    assert s2[p + 1..high + 1] == s1[p + 1..high + 1] by {
      assert s2[p + 1..high + 1] == s2[p + 1..][..high - p];
      assert s1[p + 1..high + 1] == s1[p + 1..][..high - p];
    }
    BoundCarries(s1[p + 1..high + 1], s3[p + 1..high + 1], l, v, false);
    forall i, j | low <= i < j <= high ensures ScoreAt(l, s3[i]) >= ScoreAt(l, s3[j]) {
      if i < p {
        assert s3[i] == s3[..p + 1][i] == s2[..p + 1][i] == s2[i];
        assert s2[i] in s2[low..p];
      }
      if j > p {
        assert s3[j] in s3[p + 1..high + 1];
      }
      if j < p {
        assert s3[j] == s3[..p + 1][j] == s2[..p + 1][j] == s2[j];
      }
    }
  }
}
