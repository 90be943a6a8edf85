/** The page slice of the transaction listing and its page counts. */
module Pagination {

  function Min(a: int, b: int): int {
    if a < b then a else b
  }

  /** How `Array.prototype.slice` reads an index: a negative one counts back from the end; then it is clamped to the list. */
  function SliceIndex(i: int, len: nat): (k: nat)
    ensures k <= len
    ensures 0 <= i ==> k == Min(i, len)
    ensures i < 0 ==> k == if len + i < 0 then 0 else len + i
  {
    if i < 0 then (if len + i < 0 then 0 else len + i) else Min(i, len)
  }

  /** `r` is the run of `s` that begins at index `a`. */
  ghost predicate IsRunAt<T>(r: seq<T>, s: seq<T>, a: int) {
    0 <= a <= |s| - |r| && r == s[a..a + |r|]
  }

  /** `s.slice(start, end)`: always one contiguous run of the list, never longer than `end - start`. */
  function JsSlice<T>(s: seq<T>, start: int, end: int): (r: seq<T>)
    ensures exists a :: IsRunAt(r, s, a)
    ensures start <= end ==> |r| <= end - start
    ensures 0 <= start <= end ==> r == s[Min(start, |s|)..Min(end, |s|)]
  {
    var a, b := SliceIndex(start, |s|), SliceIndex(end, |s|);
    var r := if a < b then s[a..b] else [];
    assert IsRunAt(r, s, if a < b then a else 0);
    r
  }

  /** `Math.ceil(n / d)`: the fewest pages of `d` entries that hold `n` entries. */
  function CeilDiv(n: nat, d: nat): (q: nat)
    requires d >= 1
    ensures q * d >= n
    ensures q == 0 || (q - 1) * d < n
  {
    var q := (n + d - 1) / d;
    assert n + d - 1 == q * d + (n + d - 1) % d;
    assert (q - 1) * d == q * d - d;
    q
  }

  /** `(page - 1) * perPage`, the index where page `page` starts. */
  function PageStart(page: int, perPage: int): (start: int)
    requires perPage >= 1
    ensures page >= 1 ==> start >= 0
  {
    assert page >= 1 ==> (page - 1) * perPage >= 0 by {
      if page >= 1 { MulNonNegative(page - 1, perPage); }
    }
    (page - 1) * perPage
  }

  /** The listing's response body: `transactions`, `totalTransactions`, `totalPages`, `currentPage`. */
  datatype Page<T> = Page(transactions: seq<T>, totalTransactions: nat, totalPages: nat, currentPage: int)

  /** The page numbered `page` (from 1) of `perPage` entries; any integer `page` is accepted, as `slice` accepts it. */
  function Paginate<T>(ts: seq<T>, page: int, perPage: int): (r: Page<T>)
    requires perPage >= 1
    ensures |r.transactions| <= perPage
    ensures exists a :: IsRunAt(r.transactions, ts, a)
    ensures r.totalTransactions == |ts| && r.currentPage == page
    ensures r.totalPages * perPage >= |ts| && (r.totalPages == 0 || (r.totalPages - 1) * perPage < |ts|)
    ensures page >= 1 ==>
              var start := PageStart(page, perPage);
              r.transactions == ts[Min(start, |ts|)..Min(start + perPage, |ts|)]
  {
    var start := PageStart(page, perPage);
    var slice := JsSlice(ts, start, start + perPage);
    var pages := CeilDiv(|ts|, perPage);
    Page(slice, |ts|, pages, page)
  }

  lemma MulNonNegative(a: int, b: int)
    requires a >= 0 && b >= 0
    ensures a * b >= 0
  {
  }

  lemma MulMonotone(a: int, b: int, p: int)
    requires a <= b && p >= 0
    ensures a * p <= b * p
  {
    MulNonNegative(b - a, p);
    assert (b - a) * p == b * p - a * p;
  }

  /** A page after the last one (`totalPages` is `CeilDiv(|ts|, perPage)`) is empty. */
  lemma PageAfterLastIsEmpty<T>(ts: seq<T>, page: int, perPage: int)
    requires perPage >= 1
    requires page > CeilDiv(|ts|, perPage)
    ensures Paginate(ts, page, perPage).transactions == []
  {
    StartAfterLastPage(|ts|, perPage, page);
  }

  /** Pages `first` to `last`, one after another. */
  function Pages<T>(ts: seq<T>, perPage: int, first: int, last: int): seq<T>
    requires perPage >= 1
    decreases last - first + 1
  {
    if first > last then [] else Paginate(ts, first, perPage).transactions + Pages(ts, perPage, first + 1, last)
  }

  /** Page `k + 1` starts where page `k` ends. */
  lemma PageStartStep(k: int, perPage: int)
    requires perPage >= 1
    ensures PageStart(k + 1, perPage) == PageStart(k, perPage) + perPage
  {
    assert k * perPage == (k - 1) * perPage + perPage;
  }

  /** A page after the last one starts at or beyond the end of the list. */
  lemma StartAfterLastPage(len: nat, perPage: int, k: int)
    requires perPage >= 1 && k > CeilDiv(len, perPage)
    ensures PageStart(k, perPage) >= len
  {
    MulMonotone(CeilDiv(len, perPage), k - 1, perPage);
  }

  /** Whatever lies in a run of a list lies in the list. */
  lemma RunMember<T>(r: seq<T>, s: seq<T>, x: T)
    requires exists a :: IsRunAt(r, s, a)
    requires x in r
    ensures x in s
  {
    var a :| IsRunAt(r, s, a);
    var i :| 0 <= i < |r| && r[i] == x;
    assert s[a + i] == x;
  }

  lemma SliceThenRest<T>(s: seq<T>, a: int, b: int)
    requires 0 <= a <= b <= |s|
    ensures s[a..b] + s[b..] == s[a..]
  {
  }

  /** Page `k` followed by the list from the start of page `k + 1` is the list from the start of page `k`. */
  lemma PagesStep<T>(ts: seq<T>, perPage: int, k: int, n: int)
    requires perPage >= 1 && 1 <= k <= n
    requires Pages(ts, perPage, k + 1, n) == ts[Min(PageStart(k + 1, perPage), |ts|)..]
    ensures Pages(ts, perPage, k, n) == ts[Min(PageStart(k, perPage), |ts|)..]
  {
    PageStartStep(k, perPage);
    var start := PageStart(k, perPage);
    var a, b := Min(start, |ts|), Min(start + perPage, |ts|);
    var page := Paginate(ts, k, perPage).transactions;
    var rest := Pages(ts, perPage, k + 1, n);
    assert Pages(ts, perPage, k, n) == page + rest;
    assert page == ts[a..b];
    assert rest == ts[b..];
    SliceThenRest(ts, a, b);
  }

  /** Pages `k` to `totalPages` together are the list from the start of page `k` on. */
  lemma {:induction false} PagesFrom<T>(ts: seq<T>, perPage: int, k: int)
    requires perPage >= 1 && k >= 1
    ensures Pages(ts, perPage, k, CeilDiv(|ts|, perPage)) == ts[Min(PageStart(k, perPage), |ts|)..]
    decreases CeilDiv(|ts|, perPage) + 1 - k
  {
    var n := CeilDiv(|ts|, perPage);
    if k > n {
      StartAfterLastPage(|ts|, perPage, k);
    } else {
      PagesFrom(ts, perPage, k + 1);
      PagesStep(ts, perPage, k, n);
    }
  }

  /** Reading pages 1 to `totalPages` reproduces the list exactly: nothing lost, nothing repeated, order kept. */
  lemma AllPagesReproduceList<T>(ts: seq<T>, perPage: int)
    requires perPage >= 1
    ensures Pages(ts, perPage, 1, Paginate(ts, 1, perPage).totalPages) == ts
  {
    PagesFrom(ts, perPage, 1);
  }
}
