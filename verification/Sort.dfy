/** Quicksort in place around a tracked pivot (lib/sort.c; section 7.22.5.2 of ISO/IEC 9899:2018). */
module Sort {

  /** A comparator as the C standard asks for: a total preorder read off from the sign. */
  ghost predicate Comparator<T(!new)>(cmp: (T, T) -> int)
  {
    && (forall x, y :: cmp(x, y) < 0 <==> cmp(y, x) > 0)
    && (forall x, y, z :: cmp(x, y) <= 0 && cmp(y, z) <= 0 ==> cmp(x, z) <= 0)
  }

  ghost predicate Sorted<T>(cmp: (T, T) -> int, s: seq<T>)
  {
    forall i, j :: 0 <= i < j < |s| ==> cmp(s[i], s[j]) <= 0
  }

  /** `s` and `t` have the same elements between `lo` and `hi` and agree outside. */
  ghost predicate Rearranged<T>(s: seq<T>, t: seq<T>, lo: nat, hi: nat)
  {
    && lo <= hi <= |s| == |t|
    && multiset(s[lo..hi]) == multiset(t[lo..hi])
    && s[..lo] == t[..lo] && s[hi..] == t[hi..]
  }

  ghost predicate Below<T>(cmp: (T, T) -> int, s: seq<T>, pv: T)
  {
    forall x :: x in s ==> cmp(x, pv) <= 0
  }

  ghost predicate Above<T>(cmp: (T, T) -> int, s: seq<T>, pv: T)
  {
    forall x :: x in s ==> cmp(x, pv) >= 0
  }

  lemma SwapRearranges<T>(s: seq<T>, lo: nat, hi: nat, i: nat, j: nat)
    requires lo <= i <= j < hi <= |s|
    ensures Rearranged(s, s[i := s[j]][j := s[i]], lo, hi)
  {
    var t := s[i := s[j]][j := s[i]];
    assert t[lo..hi] == s[lo..hi][i - lo := s[j]][j - lo := s[i]];
  }

  lemma RearrangedTwice<T>(s: seq<T>, t: seq<T>, u: seq<T>, lo: nat, hi: nat)
    requires Rearranged(s, t, lo, hi) && Rearranged(t, u, lo, hi)
    ensures Rearranged(s, u, lo, hi)
  {
  }

  /** Rearranging a part rearranges the whole and keeps every bound on the part. */
  lemma RearrangedPart<T>(s: seq<T>, t: seq<T>, lo: nat, hi: nat, l: nat, h: nat)
    requires lo <= l <= h <= hi && Rearranged(s, t, l, h) && hi <= |s|
    ensures Rearranged(s, t, lo, hi)
    ensures forall x :: x in t[l..h] <==> x in s[l..h]
  {
    assert t[..lo] == t[..l][..lo] && s[..lo] == s[..l][..lo];
    assert t[hi..] == t[h..][hi - h..] && s[hi..] == s[h..][hi - h..];
    assert s[lo..hi] == s[..l][lo..] + s[l..h] + s[h..][..hi - h];
    assert t[lo..hi] == t[..l][lo..] + t[l..h] + t[h..][..hi - h];
    forall x
      ensures x in t[l..h] <==> x in s[l..h]
    {
      assert x in multiset(t[l..h]) <==> x in multiset(s[l..h]);
    }
  }

  /** Sorted parts on both sides of a pivot value, with equal elements between, are sorted together. */
  lemma SortedJoin<T(!new)>(cmp: (T, T) -> int, s: seq<T>, pv: T, r: nat, l: nat)
    requires Comparator(cmp) && r <= l <= |s| && Sorted(cmp, s[..r]) && Sorted(cmp, s[l..])
    requires Below(cmp, s[..l], pv) && Above(cmp, s[r..], pv)
    ensures Sorted(cmp, s)
  {
    forall i, j | 0 <= i < j < |s|
      ensures cmp(s[i], s[j]) <= 0
    {
      if j < r {
        assert s[i] == s[..r][i] && s[j] == s[..r][j];
      } else if i >= l {
        assert s[i] == s[l..][i - l] && s[j] == s[l..][j - l];
      } else {
        assert s[i] == s[..l][i] && s[j] == s[r..][j - r];
        assert cmp(s[i], pv) <= 0 && cmp(pv, s[j]) <= 0;
      }
    }
  }

  method Swap<T>(a: array<T>, i: nat, j: nat)
    requires i <= j < a.Length
    modifies a
    ensures a[..] == old(a[..])[i := old(a[j])][j := old(a[i])]
  {
    a[i], a[j] := a[j], a[i];
  }

  /** What the scans have established below `left` and above `right`. */
  ghost predicate Scanned<T>(cmp: (T, T) -> int, s: seq<T>, lo: nat, hi: nat, pv: T, left: int, right: int)
  {
    && lo <= left <= hi <= |s| && lo - 1 <= right < hi
    && (forall k :: lo <= k < left ==> cmp(s[k], pv) <= 0)
    && (forall k :: right < k < hi ==> cmp(s[k], pv) >= 0)
  }

  /** Swapping two elements on the wrong sides lets both ends move on. */
  lemma SwapScanned<T>(cmp: (T, T) -> int, s: seq<T>, lo: nat, hi: nat, pv: T, left: nat, right: nat)
    requires Scanned(cmp, s, lo, hi, pv, left, right) && left <= right
    requires cmp(s[left], pv) >= 0 && cmp(s[right], pv) <= 0
    ensures Scanned(cmp, s[left := s[right]][right := s[left]], lo, hi, pv, left + 1, right - 1)
  {
  }

  /** The first element from `left` on that is not below the pivot; `stop` guarantees one. */
  method ScanUp<T>(a: array<T>, lo: nat, hi: nat, cmp: (T, T) -> int, pivot: nat, start: nat, ghost right: int, ghost stop: nat)
    returns (left: nat)
    requires pivot < a.Length && Scanned(cmp, a[..], lo, hi, a[pivot], start, right)
    requires start <= stop < hi && cmp(a[stop], a[pivot]) >= 0
    ensures start <= left <= stop && cmp(a[left], a[pivot]) >= 0 && Scanned(cmp, a[..], lo, hi, a[pivot], left, right)
  {
    left := start;
    while cmp(a[left], a[pivot]) < 0
      invariant start <= left <= stop && Scanned(cmp, a[..], lo, hi, a[pivot], left, right)
      decreases stop - left
    {
      left := left + 1;
    }
  }

  /** The last element up to `right` that is not above the pivot. */
  method ScanDown<T>(a: array<T>, lo: nat, hi: nat, cmp: (T, T) -> int, pivot: nat, ghost left: nat, start: nat, ghost stop: nat)
    returns (right: nat)
    requires pivot < a.Length && Scanned(cmp, a[..], lo, hi, a[pivot], left, start)
    requires lo <= stop <= start && cmp(a[stop], a[pivot]) <= 0
    ensures stop <= right <= start && cmp(a[right], a[pivot]) <= 0 && Scanned(cmp, a[..], lo, hi, a[pivot], left, right)
  {
    right := start;
    while cmp(a[right], a[pivot]) > 0
      invariant stop <= right <= start && Scanned(cmp, a[..], lo, hi, a[pivot], left, right)
      decreases right - stop
    {
      right := right - 1;
    }
  }

  lemma SelfCompare<T(!new)>(cmp: (T, T) -> int, x: T)
    requires Comparator(cmp)
    ensures cmp(x, x) == 0
  {
  }

  /** The elements that stop the scans: the pivot before the first swap, swapped elements after it. */
  lemma Stops<T>(cmp: (T, T) -> int, s: seq<T>, lo: nat, hi: nat, pv: T, left: int, right: int)
    requires Scanned(cmp, s, lo, hi, pv, left, right)
    ensures right < hi - 1 ==> cmp(s[right + 1], pv) >= 0
    ensures lo < left ==> cmp(s[left - 1], pv) <= 0
  {
  }

  /** Before the first swap both ends are where they started; after it both have moved. */
  ghost predicate Underway(lo: nat, hi: nat, left: int, right: int, pivot: int)
  {
    lo <= pivot < hi && ((left == lo && right == hi - 1 && lo < pivot) || (lo < left <= hi && lo <= right < hi - 1))
  }

  /** Swap `left` and `right` and follow the pivot. */
  method SwapAndMove<T>(a: array<T>, lo: nat, hi: nat, cmp: (T, T) -> int, left: nat, right: nat, pivot: nat) returns (pivot': nat)
    requires pivot < a.Length && Scanned(cmp, a[..], lo, hi, a[pivot], left, right) && lo <= left <= right < hi <= a.Length
    requires cmp(a[left], a[pivot]) >= 0 && cmp(a[right], a[pivot]) <= 0
    modifies a
    ensures (pivot' == pivot || left <= pivot' <= right) && pivot' < a.Length && a[pivot'] == old(a[pivot])
    ensures Scanned(cmp, a[..], lo, hi, a[pivot'], left + 1, right - 1) && Rearranged(old(a[..]), a[..], lo, hi)
  {
    hide Scanned, Rearranged;
    SwapRearranges(a[..], lo, hi, left, right);
    SwapScanned(cmp, a[..], lo, hi, a[pivot], left, right);
    Swap(a, left, right);
    pivot' := pivot;
    if left == pivot {
      pivot' := right;
    } else if right == pivot {
      pivot' := left;
    }
    assert a[pivot'] == a[..][pivot'];
  }

  /** The outer loop of qsort. `right` ends at or above `lo`, and both parts are smaller than the whole. */
  method Partition<T(!new)>(a: array<T>, lo: nat, hi: nat, cmp: (T, T) -> int) returns (left: nat, right: nat, ghost pv: T)
    requires Comparator(cmp) && lo + 2 <= hi <= a.Length
    modifies a
    ensures lo <= right < hi - 1 && lo < left <= hi && right < left
    ensures Scanned(cmp, a[..], lo, hi, pv, left, right)
    ensures Rearranged(old(a[..]), a[..], lo, hi)
  {
    hide Comparator, Scanned, Rearranged;
    var pivot := lo + (hi - lo) / 2;
    pv := a[pivot];
    SelfCompare(cmp, pv);
    left, right := lo, hi - 1;
    NothingDone(cmp, a[..], lo, hi, pv);
    while left <= right
      invariant Underway(lo, hi, left, right, pivot) && a[pivot] == pv
      invariant Scanned(cmp, a[..], lo, hi, pv, left, right) && Rearranged(old(a[..]), a[..], lo, hi)
      decreases right + 1 - left
    {
      ghost var s := a[..];
      Stops(cmp, s, lo, hi, pv, left, right);
      ghost var up := if left == lo then pivot else right + 1;
      ghost var down := if left == lo then pivot else left - 1;
      left := ScanUp(a, lo, hi, cmp, pivot, left, right, up);
      right := ScanDown(a, lo, hi, cmp, pivot, left, right, down);
      if left <= right {
        pivot := SwapAndMove(a, lo, hi, cmp, left, right, pivot);
        RearrangedTwice(old(a[..]), s, a[..], lo, hi);
        left, right := left + 1, right - 1;
      }
    }
  }

  lemma NothingDone<T>(cmp: (T, T) -> int, s: seq<T>, lo: nat, hi: nat, pv: T)
    requires lo < hi <= |s|
    ensures Scanned(cmp, s, lo, hi, pv, lo, hi - 1) && Rearranged(s, s, lo, hi)
  {
  }

  /** After both recursive calls the whole is a sorted rearrangement. */
  lemma Assembled<T(!new)>(cmp: (T, T) -> int, s0: seq<T>, s1: seq<T>, s2: seq<T>, s3: seq<T>, lo: nat, hi: nat, pv: T, left: nat, right: nat)
    requires Comparator(cmp) && lo <= right < hi && right < left && Scanned(cmp, s1, lo, hi, pv, left, right)
    requires Rearranged(s0, s1, lo, hi) && Rearranged(s1, s2, lo, right + 1) && Rearranged(s2, s3, left, hi)
    requires Sorted(cmp, s2[lo..right + 1]) && Sorted(cmp, s3[left..hi])
    ensures Rearranged(s0, s3, lo, hi) && Sorted(cmp, s3[lo..hi])
  {
    hide Comparator, Rearranged, Sorted, Below, Above, Scanned;
    Bounds(cmp, s1, lo, hi, pv, left, right);
    PartBounds(cmp, s1, s2, lo, hi, pv, left, right, lo, right + 1);
    PartBounds(cmp, s2, s3, lo, hi, pv, left, right, left, hi);
    RearrangedPart(s1, s2, lo, hi, lo, right + 1);
    RearrangedPart(s2, s3, lo, hi, left, hi);
    RearrangedTwice(s0, s1, s2, lo, hi);
    RearrangedTwice(s0, s2, s3, lo, hi);
    Outside(s2, s3, lo, right + 1, left, hi);
    Bounds(cmp, s3, lo, hi, pv, left, right);
    var s := s3[lo..hi];
    assert s[..right + 1 - lo] == s3[lo..right + 1] && s[left - lo..] == s3[left..hi];
    SortedJoin(cmp, s, pv, right + 1 - lo, left - lo);
  }

  lemma Bounds<T>(cmp: (T, T) -> int, s: seq<T>, lo: nat, hi: nat, pv: T, left: nat, right: nat)
    requires Scanned(cmp, s, lo, hi, pv, left, right) && lo <= right < left
    ensures left <= hi <= |s| && Below(cmp, s[lo..hi][..left - lo], pv) && Above(cmp, s[lo..hi][right + 1 - lo..], pv)
  {
  }

  lemma Outside<T>(s: seq<T>, t: seq<T>, l: nat, h: nat, left: nat, hi: nat)
    requires Rearranged(s, t, left, hi) && l <= h <= left
    ensures s[l..h] == t[l..h]
  {
    assert s[l..h] == s[..left][l..h] && t[l..h] == t[..left][l..h];
  }

  /** Rearranging the elements on one side of the pivot keeps them on that side. */
  lemma PartBounds<T>(cmp: (T, T) -> int, s: seq<T>, t: seq<T>, lo: nat, hi: nat, pv: T, left: nat, right: nat, l: nat, h: nat)
    requires Scanned(cmp, s, lo, hi, pv, left, right) && right < left && lo <= right && Rearranged(s, t, l, h)
    requires (l == lo && h == right + 1) || (l == left && h == hi)
    ensures Scanned(cmp, t, lo, hi, pv, left, right)
  {
    RearrangedPart(s, t, lo, hi, l, h);
    forall k | lo <= k < hi
      ensures k < left ==> cmp(t[k], pv) <= 0
      ensures right < k ==> cmp(t[k], pv) >= 0
    {
      if k < l {
        assert t[k] == t[..l][k] && s[k] == s[..l][k];
      } else if k >= h {
        assert t[k] == t[h..][k - h] && s[k] == s[h..][k - h];
      } else {
        assert t[k] == t[l..h][k - l];
        assert t[k] in s[l..h];
      }
    }
  }

  /** qsort: a sorted rearrangement, nothing outside touched. */
  method Qsort<T(!new)>(a: array<T>, lo: nat, hi: nat, cmp: (T, T) -> int)
    requires Comparator(cmp) && lo <= hi <= a.Length
    modifies a
    ensures Sorted(cmp, a[lo..hi]) && Rearranged(old(a[..]), a[..], lo, hi)
    decreases hi - lo
  {
    hide Comparator, Scanned, Rearranged;
    if hi - lo < 2 {
      Unchanged(a[..], lo, hi);
      return;
    }
    var left, right, pv := Partition(a, lo, hi, cmp);
    ghost var s1 := a[..];
    Qsort(a, lo, lo + (right - lo) + 1, cmp);
    ghost var s2 := a[..];
    Qsort(a, left, hi, cmp);
    assert s2[lo..right + 1] == a[..][lo..right + 1] by { Outside(s2, a[..], lo, right + 1, left, hi); }
    Assembled(cmp, old(a[..]), s1, s2, a[..], lo, hi, pv, left, right);
  }

  lemma Unchanged<T>(s: seq<T>, lo: nat, hi: nat)
    requires lo <= hi <= |s|
    ensures Rearranged(s, s, lo, hi)
  {
  }
}
