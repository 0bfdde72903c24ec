/** The page-protection detector: mapping addresses to page numbers, and the version clock driven by write faults. */
module PageDetector {

  datatype Region = Region(lo: nat, hi: nat)

  /** Page-aligned and pairwise disjoint, as mappings are. */
  ghost predicate Aligned(regs: seq<Region>, pg: nat)
  {
    && pg > 0
    && (forall i :: 0 <= i < |regs| ==> regs[i].lo <= regs[i].hi && regs[i].lo % pg == 0 && regs[i].hi % pg == 0)
    && (forall i, j :: 0 <= i < j < |regs| ==> regs[i].hi <= regs[j].lo || regs[j].hi <= regs[i].lo)
  }

  predicate Inside(r: Region, a: nat)
  {
    r.lo <= a < r.hi
  }

  ghost predicate Covered(regs: seq<Region>, a: nat)
  {
    exists i :: 0 <= i < |regs| && Inside(regs[i], a)
  }

  /** The whole pages between the start of a region and an address at or above it. */
  function PagesTo(r: Region, a: nat, pg: nat): nat
    requires pg > 0 && r.lo <= a
  {
    (a - r.lo) / pg
  }

  /** The number of pages in the first n regions. */
  function PagesBefore(regs: seq<Region>, pg: nat, n: nat): nat
    requires pg > 0 && n <= |regs| && forall i :: 0 <= i < |regs| ==> regs[i].lo <= regs[i].hi
  {
    if n == 0 then 0 else PagesBefore(regs, pg, n - 1) + PagesTo(regs[n - 1], regs[n - 1].hi, pg)
  }

  /** Address a lies in region i, and `index` is its page number there. */
  ghost predicate NumberedIn(regs: seq<Region>, pg: nat, a: nat, i: nat, index: nat)
    requires Aligned(regs, pg)
  {
    i < |regs| && Inside(regs[i], a) && index == PagesBefore(regs, pg, i) + PagesTo(regs[i], a, pg)
  }

  ghost predicate Indexes(regs: seq<Region>, pg: nat, a: nat, index: nat)
    requires Aligned(regs, pg)
  {
    exists i: nat :: NumberedIn(regs, pg, a, i, index)
  }

  lemma NoPages(regs: seq<Region>, pg: nat)
    requires Aligned(regs, pg)
    ensures PagesBefore(regs, pg, 0) == 0
  {
  }

  lemma OneMore(regs: seq<Region>, pg: nat, i: nat)
    requires Aligned(regs, pg) && i < |regs|
    ensures PagesBefore(regs, pg, i + 1) == PagesBefore(regs, pg, i) + PagesTo(regs[i], regs[i].hi, pg)
  {
  }

  /** The loop over the regions, with its running base. */
  method PageIndex(regs: seq<Region>, pg: nat, a: nat) returns (found: bool, index: nat)
    requires Aligned(regs, pg)
    ensures found <==> Covered(regs, a)
    ensures found ==> Indexes(regs, pg, a, index)
  {
    hide PagesTo, PagesBefore;
    assert PagesBefore(regs, pg, 0) == 0 by { NoPages(regs, pg); }
    var base := 0;
    for i := 0 to |regs|
      invariant base == PagesBefore(regs, pg, i)
      invariant forall j :: 0 <= j < i ==> !Inside(regs[j], a)
    {
      if Inside(regs[i], a) {
        index := base + PagesTo(regs[i], a, pg);
        assert NumberedIn(regs, pg, a, i, index);
        return true, index;
      }
      OneMore(regs, pg, i);
      base := base + PagesTo(regs[i], regs[i].hi, pg);
    }
    return false, 0;
  }

  lemma {:induction false} PagesMonotone(regs: seq<Region>, pg: nat, m: nat, n: nat)
    requires Aligned(regs, pg) && m <= n <= |regs|
    ensures PagesBefore(regs, pg, m) <= PagesBefore(regs, pg, n)
    decreases n
  {
    if m < n {
      PagesMonotone(regs, pg, m, n - 1);
    }
  }

  /** Offsets from an aligned start count whole pages. */
  lemma PageOffset(lo: nat, a: nat, pg: nat)
    requires pg > 0 && lo % pg == 0 && lo <= a
    ensures (a - lo) / pg == a / pg - lo / pg
  {
    var q := lo / pg;
    assert lo == q * pg + lo % pg;
    var r, p := a % pg, a / pg;
    assert a == p * pg + r;
    assert a - lo == (p - q) * pg + r by {
      assert p * pg - q * pg == (p - q) * pg;
    }
    DivUnique(a - lo, p - q, r, pg);
  }

  lemma DivUnique(x: nat, q: int, r: nat, pg: nat)
    requires pg > 0 && x == q * pg + r && r < pg
    ensures x / pg == q
  {
    var d := x / pg - q;
    assert x == (x / pg) * pg + x % pg;
    assert d * pg == r - x % pg by {
      assert (x / pg) * pg - q * pg == d * pg;
    }
    WholePages(d, pg);
  }

  lemma WholePages(d: int, pg: nat)
    ensures d >= 1 ==> d * pg >= pg
    ensures d <= -1 ==> d * pg <= 0 - pg
  {
  }

  lemma {:induction false} WithinRegion(regs: seq<Region>, pg: nat, i: nat, a: nat)
    requires Aligned(regs, pg) && i < |regs| && Inside(regs[i], a)
    ensures PagesBefore(regs, pg, i) + PagesTo(regs[i], a, pg) < PagesBefore(regs, pg, i + 1)
  {
    PageOffset(regs[i].lo, a, pg);
    PageOffset(regs[i].lo, regs[i].hi, pg);
    assert a / pg < regs[i].hi / pg by {
      BelowAligned(a, regs[i].hi, pg);
    }
  }

  lemma BelowAligned(a: nat, hi: nat, pg: nat)
    requires pg > 0 && hi % pg == 0 && a < hi
    ensures a / pg < hi / pg
  {
    assert hi == (hi / pg) * pg && a == (a / pg) * pg + a % pg;
    WholePages(a / pg - hi / pg, pg);
    assert (a / pg - hi / pg) * pg == (a / pg) * pg - (hi / pg) * pg;
  }

  /** Two covered addresses get the same index exactly when they are on the same page, and indices stay below the
      total. */
  lemma {:induction false} IndexExact(regs: seq<Region>, pg: nat, a: nat, b: nat, x: nat, y: nat)
    requires Aligned(regs, pg) && Indexes(regs, pg, a, x) && Indexes(regs, pg, b, y)
    ensures x == y <==> a / pg == b / pg
    ensures x < PagesBefore(regs, pg, |regs|)
  {
    var i: nat :| NumberedIn(regs, pg, a, i, x);
    var j: nat :| NumberedIn(regs, pg, b, j, y);
    hide PagesBefore, PagesTo, Aligned;
    WithinRegion(regs, pg, i, a);
    PagesMonotone(regs, pg, i + 1, |regs|);
    if i < j {
      LowerRegion(regs, pg, i, j, a, b);
    } else if j < i {
      LowerRegion(regs, pg, j, i, b, a);
    } else {
      SameRegion(regs, pg, i, a, b);
    }
  }

  lemma SameRegion(regs: seq<Region>, pg: nat, i: nat, a: nat, b: nat)
    requires Aligned(regs, pg) && i < |regs| && Inside(regs[i], a) && Inside(regs[i], b)
    ensures PagesTo(regs[i], a, pg) == PagesTo(regs[i], b, pg) <==> a / pg == b / pg
  {
    PageOffset(regs[i].lo, a, pg);
    PageOffset(regs[i].lo, b, pg);
  }

  /** An address in an earlier region has a smaller index and lies on another page. */
  lemma LowerRegion(regs: seq<Region>, pg: nat, i: nat, j: nat, a: nat, b: nat)
    requires Aligned(regs, pg) && i < j < |regs| && Inside(regs[i], a) && Inside(regs[j], b)
    ensures PagesBefore(regs, pg, i) + PagesTo(regs[i], a, pg) < PagesBefore(regs, pg, j) + PagesTo(regs[j], b, pg)
    ensures a / pg != b / pg
  {
    DifferentPages(regs[i], regs[j], a, b, pg);
    hide PagesBefore, PagesTo, Aligned;
    WithinRegion(regs, pg, i, a);
    PagesMonotone(regs, pg, i + 1, j);
  }

  lemma DifferentPages(r: Region, q: Region, a: nat, b: nat, pg: nat)
    requires pg > 0 && Inside(r, a) && Inside(q, b) && (r.hi <= q.lo || q.hi <= r.lo)
    requires r.lo % pg == 0 && r.hi % pg == 0 && q.lo % pg == 0 && q.hi % pg == 0
    ensures a / pg != b / pg
  {
    if r.hi <= q.lo {
      BelowAligned(a, r.hi, pg);
      PageOffset(r.hi, b, pg);
    } else {
      BelowAligned(b, q.hi, pg);
      PageOffset(q.hi, a, pg);
    }
  }

  lemma OneRegion(lo: nat, hi: nat, pg: nat, a: nat, index: nat)
    requires Aligned([Region(lo, hi)], pg) && lo <= a < hi
    ensures Indexes([Region(lo, hi)], pg, a, index) <==> index == PagesTo(Region(lo, hi), a, pg)
  {
    var regs := [Region(lo, hi)];
    NoPages(regs, pg);
    hide PagesBefore, PagesTo, Aligned;
    assert NumberedIn(regs, pg, a, 0, PagesTo(regs[0], a, pg));
  }

  lemma Multiple(lo: nat, n: nat, pg: nat)
    requires pg > 0 && lo % pg == 0
    ensures n * pg >= 0 && (lo + n * pg) % pg == 0
  {
    var q := lo / pg;
    assert lo == q * pg;
    assert lo + n * pg == (q + n) * pg;
    DivUnique(lo + n * pg, q + n, 0, pg);
  }

  /** A region of n counters with a page each, as the Redis module hands to the detector: every byte of counter k has
      page number k, so the detector's versions are versions of counters. */
  lemma {:induction false} CounterIsPage(lo: nat, hi: nat, pg: nat, n: nat, k: nat, a: nat, index: nat)
    requires pg > 0 && lo % pg == 0 && hi == lo + n * pg && k < n && lo + k * pg <= a < lo + k * pg + pg
    ensures Aligned([Region(lo, hi)], pg)
    ensures Indexes([Region(lo, hi)], pg, a, index) <==> index == k
  {
    Multiple(lo, n, pg);
    WholePages(n - k, pg);
    assert (n - k) * pg == n * pg - k * pg;
    DivUnique(a - lo, k, a - lo - k * pg, pg);
    OneRegion(lo, hi, pg, a, index);
  }
}
