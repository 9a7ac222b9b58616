/** Python's `range` with a positive step, the page size the listing loop uses, and the
    page arithmetic of its progress line. */
module Paging {

  /** `params['rows']` during the listing loop: each page holds up to 100 items. */
  const PageSize := 100

  /** `range(lo, hi, step)` for `step > 0`: lo, lo + step, ... strictly below hi. */
  function Range(lo: int, hi: int, step: int): seq<int>
    requires step > 0
    decreases hi - lo
  {
    if lo >= hi then [] else [lo] + Range(lo + step, hi, step)
  }

  /** The offsets of the listing loop, `range(0, count, 100)`. */
  function PageStarts(count: int): seq<int>
  {
    Range(0, count, PageSize)
  }

  /** The page total of the progress line: `count // 100 + int(bool(count % 100))`.
      Dafny's `/` and `%` agree with Python's `//` and `%` here because the divisor is positive. */
  function PageTotal(count: int): int
  {
    count / PageSize + (if count % PageSize != 0 then 1 else 0)
  }

  /** The page number of the progress line: `start // 100 + 1`. */
  function PageNumber(start: int): int
  {
    start / PageSize + 1
  }

  /** The ceiling of count / 100, the number of pages `count` items fill. */
  function PagesFor(count: nat): nat
  {
    (count + PageSize - 1) / PageSize
  }

  /** Every value of a range lies in [lo, hi). */
  lemma {:induction false} RangeBetween(lo: int, hi: int, step: int)
    requires step > 0
    ensures forall k :: 0 <= k < |Range(lo, hi, step)| ==> lo <= Range(lo, hi, step)[k] < hi
    decreases hi - lo
  {
    if lo < hi {
      RangeBetween(lo + step, hi, step);
    }
  }

  /** The k-th value of `range(lo, hi, 100)` is lo + 100 k, and there are
      ceil((hi - lo) / 100) of them. */
  lemma {:induction false} PagedRangeValues(lo: int, hi: int)
    ensures |Range(lo, hi, PageSize)| == if lo >= hi then 0 else PagesFor(hi - lo)
    ensures forall k :: 0 <= k < |Range(lo, hi, PageSize)| ==> Range(lo, hi, PageSize)[k] == lo + k * PageSize
    decreases hi - lo
  {
    if lo < hi {
      PagedRangeValues(lo + PageSize, hi);
      var rest := Range(lo + PageSize, hi, PageSize);
      forall k | 0 <= k < |Range(lo, hi, PageSize)|
        ensures Range(lo, hi, PageSize)[k] == lo + k * PageSize
      {
        if k > 0 {
          assert Range(lo, hi, PageSize)[k] == rest[k - 1];
        }
      }
    }
  }

  /** The listing loop visits the offsets 0, 100, 200, ... in ascending order: one per page,
      ceil(count / 100) of them, none when count is 0 or less. */
  lemma PageStartsShape(count: int)
    ensures |PageStarts(count)| == if count <= 0 then 0 else PagesFor(count)
    ensures forall k :: 0 <= k < |PageStarts(count)| ==> PageStarts(count)[k] == k * PageSize
    ensures forall j, k :: 0 <= j < k < |PageStarts(count)| ==> PageStarts(count)[j] < PageStarts(count)[k]
  {
    PagedRangeValues(0, count);
  }

  /** An offset is visited exactly when it is a non-negative multiple of 100 below count. */
  lemma PageStartsMembers(count: int, x: int)
    ensures x in PageStarts(count) <==> 0 <= x < count && x % PageSize == 0
  {
    PagedRangeValues(0, count);
    RangeBetween(0, count, PageSize);
    var r := PageStarts(count);
    if 0 <= x < count && x % PageSize == 0 {
      assert r[x / PageSize] == x;
    }
  }

  /** The page total the progress line prints is the number of pages the loop visits, and
      the page numbers it prints run 1, 2, ... up to that total. */
  lemma PageProgress(count: int)
    requires count >= 0
    ensures PageTotal(count) == PagesFor(count) == |PageStarts(count)|
    ensures forall k :: 0 <= k < |PageStarts(count)| ==>
      1 <= PageNumber(PageStarts(count)[k]) == k + 1 <= PageTotal(count)
  {
    PageStartsShape(count);
  }
}
