// qsort of 410user/libstdlib/qsort.c (Bentley and McIlroy). Elements are array cells, so pointers are
// indices, `es` is one, and a vector swap exchanges whole elements.

module Qsort {
  // The sign of cmp(x, y) orders x and y; this is what C99 section 7.20.5.2 asks of the comparator.
  ghost predicate TotalPreorder<T(!new)>(cmp: (T, T) -> int) {
    && (forall x, y :: cmp(x, y) < 0 <==> cmp(y, x) > 0)
    && (forall x, y, z :: cmp(x, y) <= 0 && cmp(y, z) <= 0 ==> cmp(x, z) <= 0)
  }

  // t is s with only the cells lo..hi rearranged.
  ghost predicate Rearranged<T>(s: seq<T>, t: seq<T>, lo: nat, hi: nat) {
    && lo <= hi <= |s| == |t|
    && (forall k :: 0 <= k < lo || hi <= k < |s| ==> t[k] == s[k])
    && multiset(s[lo..hi]) == multiset(t[lo..hi])
  }

  // The cells lo..mid are in order and none of them is above a later cell before hi.
  ghost predicate SortedPrefix<T>(s: seq<T>, lo: nat, mid: nat, hi: nat, cmp: (T, T) -> int)
    requires hi <= |s|
  {
    forall i, j :: lo <= i < mid && i < j < hi ==> cmp(s[i], s[j]) <= 0
  }

  ghost predicate Sorted<T>(s: seq<T>, lo: nat, hi: nat, cmp: (T, T) -> int)
    requires hi <= |s|
  {
    forall i, j :: lo <= i < j < hi ==> cmp(s[i], s[j]) <= 0
  }

  function Swapped<T>(s: seq<T>, i: nat, j: nat): seq<T>
    requires i < |s| && j < |s|
  {
    s[i := s[j]][j := s[i]]
  }

  lemma SwapRearranges<T>(was: seq<T>, s: seq<T>, i: nat, j: nat, lo: nat, hi: nat)
    requires lo <= i < hi && lo <= j < hi <= |s| && Rearranged(was, s, lo, hi)
    ensures Rearranged(was, Swapped(s, i, j), lo, hi)
  {
    assert Swapped(s, i, j)[lo..hi] == Swapped(s[lo..hi], i - lo, j - lo);
  }

  lemma RearrangedTrans<T>(s: seq<T>, t: seq<T>, u: seq<T>, lo: nat, hi: nat)
    requires Rearranged(s, t, lo, hi) && Rearranged(t, u, lo, hi)
    ensures Rearranged(s, u, lo, hi)
  {
  }

  lemma RearrangedWiden<T>(s: seq<T>, t: seq<T>, lo: nat, hi: nat, lo': nat, hi': nat)
    requires lo' <= lo && hi <= hi' <= |s| && Rearranged(s, t, lo, hi)
    ensures Rearranged(s, t, lo', hi')
  {
    assert s[lo'..hi'] == s[lo'..lo] + s[lo..hi] + s[hi..hi'];
    assert t[lo'..hi'] == t[lo'..lo] + t[lo..hi] + t[hi..hi'];
    assert s[lo'..lo] == t[lo'..lo] && s[hi..hi'] == t[hi..hi'];
  }

  // Rearranging cells brings in no new elements.
  lemma RearrangedFrom<T>(s: seq<T>, t: seq<T>, lo: nat, hi: nat)
    requires Rearranged(s, t, lo, hi)
    ensures forall k :: lo <= k < hi ==> t[k] in s[lo..hi]
  {
    forall k | lo <= k < hi ensures t[k] in s[lo..hi] {
      assert t[k] == t[lo..hi][k - lo];
      assert t[k] in multiset(t[lo..hi]);
    }
  }

  lemma PrefixKept<T>(s: seq<T>, t: seq<T>, lo: nat, mid: nat, hi: nat, cmp: (T, T) -> int)
    requires lo <= mid && Rearranged(s, t, mid, hi) && SortedPrefix(s, lo, mid, hi, cmp)
    ensures SortedPrefix(t, lo, mid, hi, cmp)
  {
    RearrangedFrom(s, t, mid, hi);
    forall i, j | lo <= i < mid && i < j < hi ensures cmp(t[i], t[j]) <= 0 {
      if j >= mid {
        var k :| mid <= k < hi && s[k] == t[j];
      }
    }
  }

  // The cell m lies between the two others in the order.
  ghost predicate Between<T>(s: seq<T>, x: nat, m: nat, y: nat, cmp: (T, T) -> int)
    requires x < |s| && m < |s| && y < |s|
  {
    || (cmp(s[x], s[m]) <= 0 && cmp(s[m], s[y]) <= 0)
    || (cmp(s[y], s[m]) <= 0 && cmp(s[m], s[x]) <= 0)
  }

  function Med3<T>(s: seq<T>, a: nat, b: nat, c: nat, cmp: (T, T) -> int): (m: nat)
    requires a < |s| && b < |s| && c < |s|
    ensures m < |s|
  {
    if cmp(s[a], s[b]) < 0 then
      if cmp(s[b], s[c]) < 0 then b else if cmp(s[a], s[c]) < 0 then c else a
    else
      if cmp(s[b], s[c]) > 0 then b else if cmp(s[a], s[c]) < 0 then a else c
  }

  // med3 returns the median of its three elements.
  lemma Med3IsMedian<T(!new)>(s: seq<T>, a: nat, b: nat, c: nat, cmp: (T, T) -> int)
    requires a < |s| && b < |s| && c < |s| && TotalPreorder(cmp)
    ensures var m := Med3(s, a, b, c, cmp);
            && (m == a || m == b || m == c)
            && (m == a ==> Between(s, b, a, c, cmp))
            && (m == b ==> Between(s, a, b, c, cmp))
            && (m == c ==> Between(s, a, c, b, cmp))
  {
    forall x, y | x in {s[a], s[b], s[c]} && y in {s[a], s[b], s[c]} ensures cmp(x, y) < 0 <==> cmp(y, x) > 0 {
    }
    assert cmp(s[a], s[a]) == 0 && cmp(s[b], s[b]) == 0 && cmp(s[c], s[c]) == 0;
  }

  method Swap<T>(a: array<T>, i: nat, j: nat)
    requires i < a.Length && j < a.Length
    modifies a
    ensures a[..] == Swapped(old(a[..]), i, j)
  {
    a[i], a[j] := a[j], a[i];
  }

  // The cells lo..pm are in order, but for the cell pl that is still sinking.
  ghost predicate Sinking<T>(s: seq<T>, lo: nat, pl: nat, pm: nat, cmp: (T, T) -> int)
    requires pm < |s|
  {
    forall i, j :: lo <= i < j <= pm && j != pl ==> cmp(s[i], s[j]) <= 0
  }

  lemma SinkStart<T>(s: seq<T>, lo: nat, pm: nat, cmp: (T, T) -> int)
    requires pm < |s| && Sorted(s, lo, pm, cmp)
    ensures Sinking(s, lo, pm, pm, cmp)
  {
  }

  lemma SinkStep<T(!new)>(s: seq<T>, lo: nat, pl: nat, pm: nat, cmp: (T, T) -> int)
    requires lo < pl <= pm < |s| && TotalPreorder(cmp) && Sinking(s, lo, pl, pm, cmp)
    requires cmp(s[pl - 1], s[pl]) > 0
    ensures Sinking(Swapped(s, pl, pl - 1), lo, pl - 1, pm, cmp)
  {
  }

  lemma SinkEnd<T(!new)>(s: seq<T>, lo: nat, pl: nat, pm: nat, cmp: (T, T) -> int)
    requires lo <= pl <= pm < |s| && TotalPreorder(cmp) && Sinking(s, lo, pl, pm, cmp)
    requires pl == lo || cmp(s[pl - 1], s[pl]) <= 0
    ensures Sorted(s, lo, pm + 1, cmp)
  {
    forall i, j | lo <= i < j < pm + 1 ensures cmp(s[i], s[j]) <= 0 {
      if j == pl && i < pl - 1 {
        assert cmp(s[i], s[pl - 1]) <= 0;
      }
    }
  }

  // One turn of the insertion sort: sink the cell pm into the sorted cells before it.
  method InsertOne<T(!new)>(a: array<T>, lo: nat, pm: nat, hi: nat, cmp: (T, T) -> int)
    requires lo < pm < hi <= a.Length && TotalPreorder(cmp) && Sorted(a[..], lo, pm, cmp)
    modifies a
    ensures Rearranged(old(a[..]), a[..], lo, hi) && Sorted(a[..], lo, pm + 1, cmp)
  {
    hide *;
    ghost var was := a[..];
    RearrangedSelf(was, lo, hi);
    SinkStart(was, lo, pm, cmp);
    var pl := pm;
    while pl > lo && cmp(a[pl - 1], a[pl]) > 0
      invariant lo <= pl <= pm && Rearranged(was, a[..], lo, hi)
      invariant Sinking(a[..], lo, pl, pm, cmp)
    {
      SinkStep(a[..], lo, pl, pm, cmp);
      SwapRearranges(was, a[..], pl, pl - 1, lo, hi);
      Swap(a, pl, pl - 1);
      pl := pl - 1;
    }
    SinkEnd(a[..], lo, pl, pm, cmp);
  }

  // The insertion sort used for short ranges and when partitioning moved nothing.
  method InsertionSort<T(!new)>(a: array<T>, lo: nat, n: nat, cmp: (T, T) -> int)
    requires lo + n <= a.Length && TotalPreorder(cmp)
    modifies a
    ensures Rearranged(old(a[..]), a[..], lo, lo + n)
    ensures Sorted(a[..], lo, lo + n, cmp)
  {
    hide *;
    ghost var was := a[..];
    SortedStart(was, lo, n, cmp);
    RearrangedSelf(was, lo, lo + n);
    var pm := lo + 1;
    while pm < lo + n
      invariant lo < pm && (pm <= lo + n || n == 0) && Rearranged(was, a[..], lo, lo + n)
      invariant Sorted(a[..], lo, if n == 0 then lo else pm, cmp)
    {
      ghost var s := a[..];
      InsertOne(a, lo, pm, lo + n, cmp);
      RearrangedTrans(was, s, a[..], lo, lo + n);
      pm := pm + 1;
    }
  }

  lemma SortedStart<T>(s: seq<T>, lo: nat, n: nat, cmp: (T, T) -> int)
    requires lo + n <= |s|
    ensures n == 0 ==> Sorted(s, lo, lo, cmp)
    ensures n > 0 ==> Sorted(s, lo, lo + 1, cmp)
  {
  }

  lemma RearrangedSelf<T>(s: seq<T>, lo: nat, hi: nat)
    requires lo <= hi <= |s|
    ensures Rearranged(s, s, lo, hi)
  {
  }

  // t is s with the r cells at i exchanged with the r cells at j.
  ghost predicate Exchanged<T>(s: seq<T>, t: seq<T>, i: nat, j: nat, r: nat) {
    && i + r <= j && j + r <= |s| == |t|
    && (forall k :: i <= k < i + r ==> t[k] == s[k - i + j])
    && (forall k :: j <= k < j + r ==> t[k] == s[k - j + i])
    && (forall k :: 0 <= k < |s| && !(i <= k < i + r) && !(j <= k < j + r) ==> t[k] == s[k])
  }

  lemma ExchangeStart<T>(s: seq<T>, i: nat, j: nat)
    requires i <= j <= |s|
    ensures Exchanged(s, s, i, j, 0)
  {
  }

  lemma ExchangeStep<T>(s: seq<T>, t: seq<T>, i: nat, j: nat, m: nat)
    requires Exchanged(s, t, i, j, m) && i + m < j && j + m < |s|
    ensures Exchanged(s, Swapped(t, i + m, j + m), i, j, m + 1)
  {
  }

  // vecswap: exchange the r cells at i with the r cells at j.
  method VecSwap<T>(a: array<T>, i: nat, j: nat, r: nat, ghost lo: nat, ghost hi: nat)
    requires lo <= i && i + r <= j && j + r <= hi <= a.Length
    modifies a
    ensures Exchanged(old(a[..]), a[..], i, j, r) && Rearranged(old(a[..]), a[..], lo, hi)
  {
    hide *;
    ghost var was := a[..];
    RearrangedSelf(was, lo, hi);
    ExchangeStart(was, i, j);
    if r > 0 {
      var m := 0;
      while m < r
        invariant 0 <= m <= r && Exchanged(was, a[..], i, j, m) && Rearranged(was, a[..], lo, hi)
      {
        SwapRearranges(was, a[..], i + m, j + m, lo, hi);
        ExchangeStep(was, a[..], i, j, m);
        Swap(a, i + m, j + m);
        m := m + 1;
      }
    }
  }

  // The invariant of the partition loop: equal, below, unseen, above, equal.
  ghost predicate FivePieces<T>(s: seq<T>, lo: nat, pa: nat, pb: nat, pc: int, pd: int, hi: nat, p: T, cmp: (T, T) -> int)
  {
    && lo < pa <= pb <= pc + 1 <= pd + 1 <= hi <= |s| && s[lo] == p
    && (forall k :: lo < k < pa ==> cmp(s[k], p) == 0)
    && (forall k :: pa <= k < pb ==> cmp(s[k], p) < 0)
    && (forall k :: pc < k <= pd ==> cmp(s[k], p) > 0)
    && (forall k :: pd < k < hi ==> cmp(s[k], p) == 0)
  }

  // What one step of a scan does to the pieces.
  lemma ScanLeft<T>(s: seq<T>, lo: nat, pa: nat, pb: nat, pc: int, pd: int, hi: nat, p: T, cmp: (T, T) -> int)
    requires FivePieces(s, lo, pa, pb, pc, pd, hi, p, cmp) && pb <= pc
    ensures cmp(s[pb], p) < 0 ==> FivePieces(s, lo, pa, pb + 1, pc, pd, hi, p, cmp)
    ensures cmp(s[pb], p) == 0 ==> FivePieces(Swapped(s, pa, pb), lo, pa + 1, pb + 1, pc, pd, hi, p, cmp)
  {
  }

  lemma ScanRight<T>(s: seq<T>, lo: nat, pa: nat, pb: nat, pc: int, pd: int, hi: nat, p: T, cmp: (T, T) -> int)
    requires FivePieces(s, lo, pa, pb, pc, pd, hi, p, cmp) && pb <= pc
    ensures cmp(s[pc], p) > 0 ==> FivePieces(s, lo, pa, pb, pc - 1, pd, hi, p, cmp)
    ensures cmp(s[pc], p) == 0 ==> FivePieces(Swapped(s, pc, pd), lo, pa, pb, pc - 1, pd - 1, hi, p, cmp)
  {
  }

  lemma Exchange<T>(s: seq<T>, lo: nat, pa: nat, pb: nat, pc: int, pd: int, hi: nat, p: T, cmp: (T, T) -> int)
    requires FivePieces(s, lo, pa, pb, pc, pd, hi, p, cmp) && pb <= pc && cmp(s[pb], p) > 0 && cmp(s[pc], p) < 0
    ensures pb < pc && FivePieces(Swapped(s, pb, pc), lo, pa, pb + 1, pc - 1, pd, hi, p, cmp)
  {
  }

  lemma PiecesStart<T>(s: seq<T>, lo: nat, hi: nat, cmp: (T, T) -> int)
    requires lo + 2 <= hi <= |s|
    ensures FivePieces(s, lo, lo + 1, lo + 1, hi - 1, hi - 1, hi, s[lo], cmp)
  {
  }

  lemma PiecesBounds<T>(s: seq<T>, lo: nat, pa: nat, pb: nat, pc: int, pd: int, hi: nat, p: T, cmp: (T, T) -> int)
    requires FivePieces(s, lo, pa, pb, pc, pd, hi, p, cmp)
    ensures lo < pa <= pb <= pc + 1 <= pd + 1 <= hi <= |s| && s[lo] == p
  {
  }

  // The first scan: pass over keys below the pivot, parking equal keys on the left.
  method ScanUp<T(!new)>(a: array<T>, lo: nat, hi: nat, pa0: nat, pb0: nat, pc: int, pd: int, swapCnt0: int, ghost p: T,
                         ghost was: seq<T>, cmp: (T, T) -> int)
    returns (pa: nat, pb: nat, swapCnt: int)
    requires FivePieces(a[..], lo, pa0, pb0, pc, pd, hi, p, cmp) && Rearranged(was, a[..], lo, hi)
    modifies a
    ensures FivePieces(a[..], lo, pa, pb, pc, pd, hi, p, cmp) && Rearranged(was, a[..], lo, hi)
    ensures pb0 <= pb && (pb <= pc ==> pb < a.Length && cmp(a[pb], p) > 0)
    ensures swapCnt == 0 ==> swapCnt0 == 0 && a[..] == old(a[..])
  {
    hide *;
    pa, pb, swapCnt := pa0, pb0, swapCnt0;
    PiecesBounds(a[..], lo, pa, pb, pc, pd, hi, p, cmp);
    while pb <= pc && cmp(a[pb], a[lo]) <= 0
      invariant lo < pa <= pb <= pc + 1 <= pd + 1 <= hi <= a.Length && a[lo] == p && pb0 <= pb
      invariant FivePieces(a[..], lo, pa, pb, pc, pd, hi, p, cmp) && Rearranged(was, a[..], lo, hi)
      invariant swapCnt == 0 ==> swapCnt0 == 0 && a[..] == old(a[..])
      decreases pc - pb + 1
    {
      ScanLeft(a[..], lo, pa, pb, pc, pd, hi, p, cmp);
      if cmp(a[pb], a[lo]) == 0 {
        swapCnt := 1;
        SwapRearranges(was, a[..], pa, pb, lo, hi);
        Swap(a, pa, pb);
        pa := pa + 1;
      }
      pb := pb + 1;
      PiecesBounds(a[..], lo, pa, pb, pc, pd, hi, p, cmp);
    }
  }

  // The second scan: pass over keys above the pivot, parking equal keys on the right.
  method ScanDown<T(!new)>(a: array<T>, lo: nat, hi: nat, pa: nat, pb: nat, pc0: int, pd0: int, swapCnt0: int, ghost p: T,
                           ghost was: seq<T>, cmp: (T, T) -> int)
    returns (pc: int, pd: int, swapCnt: int)
    requires FivePieces(a[..], lo, pa, pb, pc0, pd0, hi, p, cmp) && Rearranged(was, a[..], lo, hi)
    requires pb <= pc0 ==> pb < a.Length && cmp(a[pb], p) > 0
    modifies a
    ensures FivePieces(a[..], lo, pa, pb, pc, pd, hi, p, cmp) && Rearranged(was, a[..], lo, hi)
    ensures pc <= pc0 && (pb <= pc ==> 0 <= pc < a.Length && cmp(a[pc], p) < 0 && cmp(a[pb], p) > 0)
    ensures swapCnt == 0 ==> swapCnt0 == 0 && a[..] == old(a[..])
  {
    hide Rearranged, FivePieces;
    pc, pd, swapCnt := pc0, pd0, swapCnt0;
    PiecesBounds(a[..], lo, pa, pb, pc, pd, hi, p, cmp);
    while pb <= pc && cmp(a[pc], a[lo]) >= 0
      invariant lo < pa <= pb <= pc + 1 <= pd + 1 <= hi <= a.Length && a[lo] == p && pc <= pc0
      invariant FivePieces(a[..], lo, pa, pb, pc, pd, hi, p, cmp) && Rearranged(was, a[..], lo, hi)
      invariant swapCnt == 0 ==> swapCnt0 == 0 && a[..] == old(a[..])
      invariant pb <= pc ==> cmp(a[pb], p) > 0
      decreases pc - pb + 1
    {
      ScanRight(a[..], lo, pa, pb, pc, pd, hi, p, cmp);
      if cmp(a[pc], a[lo]) == 0 {
        swapCnt := 1;
        SwapRearranges(was, a[..], pc, pd, lo, hi);
        Swap(a, pc, pd);
        pd := pd - 1;
      }
      pc := pc - 1;
      PiecesBounds(a[..], lo, pa, pb, pc, pd, hi, p, cmp);
    }
  }

  // The partition loop. Keys equal to the pivot a[lo] are parked at both ends.
  method Partition<T(!new)>(a: array<T>, lo: nat, n: nat, cmp: (T, T) -> int)
    returns (pa: nat, pb: nat, pc: int, pd: int, swapCnt: int)
    requires n >= 2 && lo + n <= a.Length
    modifies a
    ensures Rearranged(old(a[..]), a[..], lo, lo + n)
    ensures FivePieces(a[..], lo, pa, pb, pc, pd, lo + n, old(a[lo]), cmp) && pb == pc + 1
    ensures swapCnt == 0 ==> a[..] == old(a[..])
  {
    hide *;
    ghost var was, p := a[..], a[lo];
    var hi := lo + n;
    RearrangedSelf(was, lo, hi);
    swapCnt := 0;
    pa, pb := lo + 1, lo + 1;
    pc, pd := lo + n - 1, lo + n - 1;
    PiecesStart(a[..], lo, hi, cmp);
    while true
      invariant Rearranged(was, a[..], lo, hi) && pb <= pc + 1 && (swapCnt == 0 ==> a[..] == was)
      invariant FivePieces(a[..], lo, pa, pb, pc, pd, hi, p, cmp)
      decreases pc - pb + 1
    {
      pa, pb, swapCnt := ScanUp(a, lo, hi, pa, pb, pc, pd, swapCnt, p, was, cmp);
      pc, pd, swapCnt := ScanDown(a, lo, hi, pa, pb, pc, pd, swapCnt, p, was, cmp);
      PiecesBounds(a[..], lo, pa, pb, pc, pd, hi, p, cmp);
      if pb > pc {
        break;
      }
      Exchange(a[..], lo, pa, pb, pc, pd, hi, p, cmp);
      SwapRearranges(was, a[..], pb, pc, lo, hi);
      Swap(a, pb, pc);
      swapCnt := 1;
      pb := pb + 1;
      pc := pc - 1;
      PiecesBounds(a[..], lo, pa, pb, pc, pd, hi, p, cmp);
    }
  }

  // After both vector swaps: below, equal, above.
  ghost predicate ThreePieces<T>(s: seq<T>, lo: nat, l: nat, g: nat, hi: nat, p: T, cmp: (T, T) -> int) {
    && lo + l + g <= hi <= |s|
    && (forall k :: lo <= k < lo + l ==> cmp(s[k], p) < 0)
    && (forall k :: lo + l <= k < hi - g ==> cmp(s[k], p) == 0)
    && (forall k :: hi - g <= k < hi ==> cmp(s[k], p) > 0)
  }

  function Min(x: int, y: int): int { if x < y then x else y }

  // The first vector swap puts the keys below the pivot in front of those equal to it.
  lemma GatherLeft<T(!new)>(s: seq<T>, t: seq<T>, lo: nat, pa: nat, pb: nat, pc: int, pd: int, hi: nat, p: T, cmp: (T, T) -> int)
    requires FivePieces(s, lo, pa, pb, pc, pd, hi, p, cmp) && TotalPreorder(cmp)
    requires var r := Min(pa - lo, pb - pa); Exchanged(s, t, lo, pb - r, r)
    ensures forall k :: lo <= k < lo + (pb - pa) ==> cmp(t[k], p) < 0
    ensures forall k :: lo + (pb - pa) <= k < pb ==> cmp(t[k], p) == 0
    ensures forall k :: pb <= k < hi ==> t[k] == s[k]
  {
    assert cmp(p, p) == 0;
  }

  // The second puts the keys above the pivot behind those equal to it.
  lemma GatherRight<T>(was: seq<T>, s: seq<T>, t: seq<T>, lo: nat, pa: nat, pb: nat, pc: int, pd: int, hi: nat, p: T,
                       cmp: (T, T) -> int)
    requires FivePieces(was, lo, pa, pb, pc, pd, hi, p, cmp) && pb == pc + 1
    requires |s| == |was| && forall k :: pb <= k < hi ==> s[k] == was[k]
    requires forall k :: lo <= k < lo + (pb - pa) ==> cmp(s[k], p) < 0
    requires forall k :: lo + (pb - pa) <= k < pb ==> cmp(s[k], p) == 0
    requires var r := Min(pd - pc, hi - pd - 1); Exchanged(s, t, pb, hi - r, r)
    ensures ThreePieces(t, lo, pb - pa, pd - pc, hi, p, cmp)
  {
  }

  // The two vector swaps bring the parked equal keys to the middle.
  method GatherEqual<T(!new)>(a: array<T>, lo: nat, n: nat, pa: nat, pb: nat, pc: int, pd: int, ghost p: T, cmp: (T, T) -> int)
    requires TotalPreorder(cmp)
    requires FivePieces(a[..], lo, pa, pb, pc, pd, lo + n, p, cmp) && pb == pc + 1
    modifies a
    ensures Rearranged(old(a[..]), a[..], lo, lo + n)
    ensures ThreePieces(a[..], lo, pb - pa, pd - pc, lo + n, p, cmp) && pb - pa + (pd - pc) < n
  {
    hide TotalPreorder, Rearranged, Exchanged, FivePieces, ThreePieces;
    ghost var was, hi := a[..], lo + n;
    PiecesBounds(was, lo, pa, pb, pc, pd, hi, p, cmp);
    var pn := lo + n;
    var r := Min(pa - lo, pb - pa);
    VecSwap(a, lo, pb - r, r, lo, hi);
    ghost var mid := a[..];
    GatherLeft(was, mid, lo, pa, pb, pc, pd, hi, p, cmp);
    r := Min(pd - pc, pn - pd - 1);
    VecSwap(a, pb, pn - r, r, lo, hi);
    GatherRight(was, mid, a[..], lo, pa, pb, pc, pd, hi, p, cmp);
    RearrangedTrans(was, mid, a[..], lo, hi);
  }

  lemma Med3InRange<T>(s: seq<T>, a: nat, b: nat, c: nat, cmp: (T, T) -> int, lo: nat, hi: nat)
    requires lo <= a < hi && lo <= b < hi && lo <= c < hi <= |s|
    ensures lo <= Med3(s, a, b, c, cmp) < hi
  {
  }

  // The pivot's cell: the middle one, the median of three, or the median of three medians.
  function Pivot<T>(s: seq<T>, lo: nat, n: nat, cmp: (T, T) -> int): (pm: nat)
    requires n >= 7 && lo + n <= |s|
    ensures pm < |s|
  {
    var mid, last := lo + n / 2, lo + n - 1;
    if n == 7 then mid
    else if n <= 40 then Med3(s, lo, mid, last, cmp)
    else
      var d := n / 8;
      Med3(s, Med3(s, lo, lo + d, lo + 2 * d, cmp), Med3(s, mid - d, mid, mid + d, cmp), Med3(s, last - 2 * d, last - d, last, cmp), cmp)
  }

  // The other cells of the range that are not above the cell m, and those that are not below it.
  ghost function NotAbove<T>(s: seq<T>, lo: nat, hi: nat, m: nat, cmp: (T, T) -> int): set<nat>
    requires hi <= |s| && m < |s|
  {
    set i | lo <= i < hi && i != m && cmp(s[i], s[m]) <= 0
  }

  ghost function NotBelow<T>(s: seq<T>, lo: nat, hi: nat, m: nat, cmp: (T, T) -> int): set<nat>
    requires hi <= |s| && m < |s|
  {
    set i | lo <= i < hi && i != m && cmp(s[m], s[i]) <= 0
  }

  // At least k other cells of the range on either side of the cell m.
  ghost predicate Central<T>(s: seq<T>, lo: nat, hi: nat, m: nat, cmp: (T, T) -> int, k: nat)
  {
    lo <= m < hi <= |s| && |NotAbove(s, lo, hi, m, cmp)| >= k && |NotBelow(s, lo, hi, m, cmp)| >= k
  }

  function Spread(n: nat): nat { if n > 40 then 3 else if n > 7 then 1 else 0 }

  // Which of three cells is below the median, and which above.
  lemma MedianSplit<T(!new)>(s: seq<T>, a: nat, b: nat, c: nat, cmp: (T, T) -> int) returns (x: nat, y: nat)
    requires a < b < c < |s| && TotalPreorder(cmp)
    ensures var m := Med3(s, a, b, c, cmp);
            && (m == a || m == b || m == c) && (x == a || x == b || x == c) && (y == a || y == b || y == c) && x != m && y != m && x != y
            && cmp(s[x], s[m]) <= 0 && cmp(s[m], s[y]) <= 0
  {
    hide TotalPreorder, Med3;
    Med3IsMedian(s, a, b, c, cmp);
    var m := Med3(s, a, b, c, cmp);
    x, y := if m == a then b else a, if m == c then b else c;
    if !(cmp(s[x], s[m]) <= 0 && cmp(s[m], s[y]) <= 0) {
      x, y := y, x;
    }
  }

  lemma AtLeastThree(k: set<nat>, x: nat, y: nat, z: nat)
    requires x in k && y in k && z in k && x != y && y != z && x != z
    ensures |k| >= 3
  {
    assert |k - {x} - {y} - {z}| == |k| - 3;
  }

  // The median m of the medians: behind it and behind another median lies one cell each.
  lemma NintherCentral<T(!new)>(s: seq<T>, lo: nat, hi: nat, m: nat, x: nat, y: nat, l: nat, xl: nat, h: nat, yh: nat, cmp: (T, T) -> int)
    requires TotalPreorder(cmp) && lo <= m < hi <= |s|
    requires lo <= x < hi && lo <= y < hi && lo <= l < hi && lo <= xl < hi && lo <= h < hi && lo <= yh < hi
    requires x != m && l != m && xl != m && x != l && x != xl && l != xl
    requires y != m && h != m && yh != m && y != h && y != yh && h != yh
    requires cmp(s[x], s[m]) <= 0 && cmp(s[m], s[y]) <= 0 && cmp(s[l], s[m]) <= 0 && cmp(s[m], s[h]) <= 0
    requires cmp(s[xl], s[l]) <= 0 && cmp(s[h], s[yh]) <= 0
    ensures Central(s, lo, hi, m, cmp, 3)
  {
    assert cmp(s[xl], s[m]) <= 0 && cmp(s[m], s[yh]) <= 0;
    AtLeastThree(NotAbove(s, lo, hi, m, cmp), x, l, xl);
    AtLeastThree(NotBelow(s, lo, hi, m, cmp), y, h, yh);
  }

  lemma PivotCentral<T(!new)>(s: seq<T>, lo: nat, n: nat, cmp: (T, T) -> int)
    requires n >= 7 && lo + n <= |s| && TotalPreorder(cmp)
    ensures Central(s, lo, lo + n, Pivot(s, lo, n, cmp), cmp, Spread(n))
  {
    hide TotalPreorder, Med3, Central;
    var mid, last, hi := lo + n / 2, lo + n - 1, lo + n;
    var pm := Pivot(s, lo, n, cmp);
    if n == 7 {
      OneCentral(s, lo, hi, pm, cmp);
    } else if n <= 40 {
      var x, y := MedianSplit(s, lo, mid, last, cmp);
      ThreeCentral(s, lo, hi, pm, x, y, cmp);
    } else {
      NintherPivot(s, lo, n, cmp);
    }
  }

  lemma NintherPivot<T(!new)>(s: seq<T>, lo: nat, n: nat, cmp: (T, T) -> int)
    requires n > 40 && lo + n <= |s| && TotalPreorder(cmp)
    ensures Central(s, lo, lo + n, Pivot(s, lo, n, cmp), cmp, 3)
  {
    hide TotalPreorder, Med3, Central;
    var d, mid, last := n / 8, lo + n / 2, lo + n - 1;
    assert lo + 2 * d < mid - d && mid + d < last - 2 * d;
    var m1, m2, m3 := Med3(s, lo, lo + d, lo + 2 * d, cmp), Med3(s, mid - d, mid, mid + d, cmp), Med3(s, last - 2 * d, last - d, last, cmp);
    var x1, y1 := MedianSplit(s, lo, lo + d, lo + 2 * d, cmp);
    var x2, y2 := MedianSplit(s, mid - d, mid, mid + d, cmp);
    var x3, y3 := MedianSplit(s, last - 2 * d, last - d, last, cmp);
    ThreeGroups(s, lo, lo + n, m1, x1, y1, mid - d, m2, x2, y2, last - 2 * d, m3, x3, y3, cmp);
  }

  // Three medians of cells in three stretches of the range, one behind the other.
  lemma ThreeGroups<T(!new)>(s: seq<T>, lo: nat, hi: nat, m1: nat, x1: nat, y1: nat, lo2: nat, m2: nat, x2: nat, y2: nat,
                             lo3: nat, m3: nat, x3: nat, y3: nat, cmp: (T, T) -> int)
    requires hi <= |s| && TotalPreorder(cmp)
    requires lo <= m1 < lo2 && lo <= x1 < lo2 && lo <= y1 < lo2 && lo2 <= m2 < lo3 && lo2 <= x2 < lo3 && lo2 <= y2 < lo3
    requires lo3 <= m3 < hi && lo3 <= x3 < hi && lo3 <= y3 < hi
    requires x1 != m1 && y1 != m1 && cmp(s[x1], s[m1]) <= 0 && cmp(s[m1], s[y1]) <= 0
    requires x2 != m2 && y2 != m2 && cmp(s[x2], s[m2]) <= 0 && cmp(s[m2], s[y2]) <= 0
    requires x3 != m3 && y3 != m3 && cmp(s[x3], s[m3]) <= 0 && cmp(s[m3], s[y3]) <= 0
    ensures Central(s, lo, hi, Med3(s, m1, m2, m3, cmp), cmp, 3)
  {
    hide TotalPreorder, Med3, Central;
    var m := Med3(s, m1, m2, m3, cmp);
    var l, h := MedianSplit(s, m1, m2, m3, cmp);
    var x, y := if m == m1 then x1 else if m == m2 then x2 else x3, if m == m1 then y1 else if m == m2 then y2 else y3;
    var xl, yh := if l == m1 then x1 else if l == m2 then x2 else x3, if h == m1 then y1 else if h == m2 then y2 else y3;
    NintherCentral(s, lo, hi, m, x, y, l, xl, h, yh, cmp);
  }

  lemma OneCentral<T>(s: seq<T>, lo: nat, hi: nat, m: nat, cmp: (T, T) -> int)
    requires lo <= m < hi <= |s|
    ensures Central(s, lo, hi, m, cmp, 0)
  {
  }

  lemma ThreeCentral<T>(s: seq<T>, lo: nat, hi: nat, m: nat, x: nat, y: nat, cmp: (T, T) -> int)
    requires lo <= m < hi <= |s| && lo <= x < hi && lo <= y < hi && x != m && y != m && cmp(s[x], s[m]) <= 0 && cmp(s[m], s[y]) <= 0
    ensures Central(s, lo, hi, m, cmp, 1)
  {
    assert x in NotAbove(s, lo, hi, m, cmp) && y in NotBelow(s, lo, hi, m, cmp);
  }

  method ChoosePivot<T(!new)>(a: array<T>, lo: nat, n: nat, cmp: (T, T) -> int) returns (pm: nat)
    requires n >= 7 && lo + n <= a.Length
    ensures lo <= pm < lo + n && pm == Pivot(a[..], lo, n, cmp)
    ensures TotalPreorder(cmp) ==> Central(a[..], lo, lo + n, pm, cmp, Spread(n))
  {
    hide TotalPreorder, Central, Spread, Med3;
    pm := lo + n / 2;
    if n > 7 {
      var pl, pn := lo, lo + n - 1;
      if n > 40 {
        var d := n / 8;
        Med3InRange(a[..], pl, pl + d, pl + 2 * d, cmp, lo, lo + n);
        Med3InRange(a[..], pm - d, pm, pm + d, cmp, lo, lo + n);
        Med3InRange(a[..], pn - 2 * d, pn - d, pn, cmp, lo, lo + n);
        pl := Med3(a[..], pl, pl + d, pl + 2 * d, cmp);
        pm := Med3(a[..], pm - d, pm, pm + d, cmp);
        pn := Med3(a[..], pn - 2 * d, pn - d, pn, cmp);
      }
      Med3InRange(a[..], pl, pm, pn, cmp, lo, lo + n);
      pm := Med3(a[..], pl, pm, pn, cmp);
    }
    if TotalPreorder(cmp) { PivotCentral(a[..], lo, n, cmp); }
  }

  // What the recursion may rely on and must give back for the tail lo..hi of the range lo0..hi.
  ghost predicate TailState<T>(was: seq<T>, s: seq<T>, lo0: nat, lo: nat, hi: nat, cmp: (T, T) -> int) {
    lo0 <= lo <= hi && Rearranged(was, s, lo0, hi) && SortedPrefix(s, lo0, lo, hi, cmp)
  }

  lemma TailStart<T>(s: seq<T>, lo: nat, hi: nat, cmp: (T, T) -> int)
    requires lo <= hi <= |s|
    ensures TailState(s, s, lo, lo, hi, cmp)
  {
  }

  lemma TailKept<T>(was: seq<T>, s: seq<T>, t: seq<T>, lo0: nat, lo: nat, hi: nat, cmp: (T, T) -> int)
    requires TailState(was, s, lo0, lo, hi, cmp) && Rearranged(s, t, lo, hi)
    ensures TailState(was, t, lo0, lo, hi, cmp)
  {
    hide SortedPrefix, Rearranged;
    TailBounds(was, s, lo0, lo, hi, cmp);
    RearrangedWiden(s, t, lo, hi, lo0, hi);
    RearrangedTrans(was, s, t, lo0, hi);
    PrefixKept(s, t, lo0, lo, hi, cmp);
  }

  lemma TailBounds<T>(was: seq<T>, s: seq<T>, lo0: nat, lo: nat, hi: nat, cmp: (T, T) -> int)
    requires TailState(was, s, lo0, lo, hi, cmp)
    ensures lo0 <= lo <= hi <= |s| == |was|
  {
  }

  lemma TailSorted<T>(was: seq<T>, s: seq<T>, lo0: nat, lo: nat, hi: nat, cmp: (T, T) -> int)
    requires TailState(was, s, lo0, lo, hi, cmp) && Sorted(s, lo, hi, cmp)
    ensures Rearranged(was, s, lo0, hi) && Sorted(s, lo0, hi, cmp)
  {
  }

  // Sorting the keys below the pivot leaves the three pieces in place.
  lemma PiecesKept<T>(s: seq<T>, t: seq<T>, lo: nat, l: nat, g: nat, hi: nat, p: T, cmp: (T, T) -> int)
    requires ThreePieces(s, lo, l, g, hi, p, cmp) && Rearranged(s, t, lo, lo + l)
    ensures ThreePieces(t, lo, l, g, hi, p, cmp)
  {
    RearrangedFrom(s, t, lo, lo + l);
    forall k | lo <= k < lo + l ensures cmp(t[k], p) < 0 {
      var i :| lo <= i < lo + l && s[i] == t[k];
    }
  }

  // Once the keys below the pivot are in order, only those above it remain to be sorted.
  lemma TailAdvance<T(!new)>(was: seq<T>, s: seq<T>, lo0: nat, lo: nat, l: nat, g: nat, hi: nat, p: T, cmp: (T, T) -> int)
    requires TailState(was, s, lo0, lo, hi, cmp) && ThreePieces(s, lo, l, g, hi, p, cmp) && TotalPreorder(cmp)
    requires Sorted(s, lo, lo + l, cmp)
    ensures TailState(was, s, lo0, hi - g, hi, cmp)
  {
    forall i, j | lo0 <= i < hi - g && i < j < hi ensures cmp(s[i], s[j]) <= 0 {
      if i >= lo && j >= lo + l {
        assert cmp(s[i], p) <= 0 && cmp(p, s[j]) <= 0;
      }
    }
  }

  // A range too short for the pieces to need sorting.
  lemma ShortSorted<T>(s: seq<T>, lo: nat, n: nat, cmp: (T, T) -> int)
    requires lo + n <= |s| && n <= 1
    ensures Sorted(s, lo, lo + n, cmp)
  {
  }

  // One pass over a range of at least seven cells: choose a pivot and partition, falling back on
  // insertion sort when the partition moved nothing.
  method Pass<T(!new)>(a: array<T>, lo: nat, n: nat, cmp: (T, T) -> int)
    returns (done: bool, l: nat, g: nat, ghost p: T)
    requires n >= 7 && lo + n <= a.Length && TotalPreorder(cmp)
    modifies a
    ensures Rearranged(old(a[..]), a[..], lo, lo + n)
    ensures done ==> Sorted(a[..], lo, lo + n, cmp)
    ensures !done ==> ThreePieces(a[..], lo, l, g, lo + n, p, cmp) && l + g < n
  {
    hide *;
    ghost var was, hi := a[..], lo + n;
    var pm := ChoosePivot(a, lo, n, cmp);
    RearrangedSelf(was, lo, hi);
    SwapRearranges(was, was, lo, pm, lo, hi);
    Swap(a, lo, pm);
    p := a[lo];
    ghost var s := a[..];
    var pa, pb, pc, pd, swapCnt := Partition(a, lo, n, cmp);
    RearrangedTrans(was, s, a[..], lo, hi);
    s := a[..];
    PiecesBounds(s, lo, pa, pb, pc, pd, hi, p, cmp);
    l, g := pb - pa, pd - pc;
    done := swapCnt == 0;
    if done {
      InsertionSort(a, lo, n, cmp);
    } else {
      GatherEqual(a, lo, n, pa, pb, pc, pd, p, cmp);
    }
    RearrangedTrans(was, s, a[..], lo, hi);
  }

  // qsort: the range a[lo0..lo0+n0]. The C code iterates on the upper part instead of recursing.
  method QSort<T(!new)>(a: array<T>, lo0: nat, n0: nat, cmp: (T, T) -> int)
    requires lo0 + n0 <= a.Length && TotalPreorder(cmp)
    modifies a
    ensures Rearranged(old(a[..]), a[..], lo0, lo0 + n0)
    ensures Sorted(a[..], lo0, lo0 + n0, cmp)
    decreases n0
  {
    hide *;
    ghost var was, hi := a[..], lo0 + n0;
    TailStart(was, lo0, hi, cmp);
    var lo, n := lo0, n0;
    while n >= 7
      invariant lo0 <= lo && lo + n == hi && 0 <= n <= n0 && TailState(was, a[..], lo0, lo, hi, cmp)
      decreases n
    {
      ghost var s := a[..];
      var done, l, g, p := Pass(a, lo, n, cmp);
      TailKept(was, s, a[..], lo0, lo, hi, cmp);
      if done {
        TailSorted(was, a[..], lo0, lo, hi, cmp);
        return;
      }
      s := a[..];
      if l > 1 {
        QSort(a, lo, l, cmp);
        PiecesKept(s, a[..], lo, l, g, hi, p, cmp);
        RearrangedWiden(s, a[..], lo, lo + l, lo, hi);
        TailKept(was, s, a[..], lo0, lo, hi, cmp);
      } else {
        ShortSorted(s, lo, l, cmp);
      }
      TailAdvance(was, a[..], lo0, lo, l, g, hi, p, cmp);
      if g <= 1 {
        ShortSorted(a[..], hi - g, g, cmp);
        TailSorted(was, a[..], lo0, hi - g, hi, cmp);
        return;
      }
      lo, n := lo + n - g, g;
    }
    ghost var s := a[..];
    InsertionSort(a, lo, n, cmp);
    TailKept(was, s, a[..], lo0, lo, hi, cmp);
    TailSorted(was, a[..], lo0, lo, hi, cmp);
  }
}
