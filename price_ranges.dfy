/** `calculatePriceRanges`: a ten-bucket histogram of the month's prices. */
module PriceRanges {
  import opened Sequences
  import opened Numbers
  import opened Transactions

  datatype PriceRange = PriceRange(range: string, count: nat)

  /** The bucket labels, in the fixed order of the response. */
  const Labels: seq<string> := [
    "0 - 100", "101 - 200", "201 - 300", "301 - 400", "401 - 500",
    "501 - 600", "601 - 700", "701 - 800", "801 - 900", "901 - above"]

  /** The `if (price <= 100) … else if (price <= 900) … else` ladder. NaN fails every `<=` and lands in the last bucket. */
  function BucketIndex(p: Float): (k: nat)
    ensures k < 10
  {
    match p
    case NaN => 9
    case Real(x) =>
      if x <= 100.0 then 0
      else if x <= 200.0 then 1
      else if x <= 300.0 then 2
      else if x <= 400.0 then 3
      else if x <= 500.0 then 4
      else if x <= 600.0 then 5
      else if x <= 700.0 then 6
      else if x <= 800.0 then 7
      else if x <= 900.0 then 8
      else 9
  }

  /** Bucket `k` as an interval: (-inf, 100], (100k, 100(k+1)] for k in 1..8, (900, +inf). */
  predicate InInterval(x: real, k: nat) {
    (k == 0 && x <= 100.0)
    || (1 <= k <= 8 && 100.0 * k as real < x <= 100.0 * (k + 1) as real)
    || (k == 9 && x > 900.0)
  }

  /** A number lands in bucket `k` exactly when it lies in the `k`-th interval, so in exactly one bucket. */
  lemma BucketIndexIsInterval(x: real, k: nat)
    requires k < 10
    ensures BucketIndex(Real(x)) == k <==> InInterval(x, k)
  {
  }

  /** The record's price passes `price && !isNaN(price)` and is counted in bucket `k`. */
  predicate InBucket(r: Record, k: nat) {
    IsCountable(r.price) && BucketIndex(ParseFloat(r.price)) == k
  }

  function Bump(h: seq<nat>, k: nat): (r: seq<nat>)
    requires k < |h|
    ensures |r| == |h|
    ensures r[k] == h[k] + 1
    ensures forall j :: 0 <= j < |h| && j != k ==> r[j] == h[j]
  {
    h[k := h[k] + 1]
  }

  /** The ten counts after a pass over `ts`. */
  function Histogram(ts: seq<Record>): (h: seq<nat>)
    ensures |h| == 10
  {
    if ts == [] then seq(10, _ => 0)
    else
      var last := ts[|ts| - 1];
      var before := Histogram(ts[..|ts| - 1]);
      if IsCountable(last.price) then Bump(before, BucketIndex(ParseFloat(last.price))) else before
  }

  /** The response: the fixed labels, each with its count. */
  function Ranges(h: seq<nat>): (r: seq<PriceRange>)
    requires |h| == 10
    ensures |r| == 10 && forall k :: 0 <= k < 10 ==> r[k].range == Labels[k]
    ensures forall k :: 0 <= k < 10 ==> r[k].count == h[k]
  {
    seq(10, k requires 0 <= k < 10 => PriceRange(Labels[k], h[k]))
  }

  /** Starts from the ten zero-count buckets and increments the chosen bucket's `count` in place. */
  method CalculatePriceRanges(ts: seq<Record>) returns (ranges: seq<PriceRange>)
    ensures ranges == Ranges(Histogram(ts))
  {
    var buckets := new PriceRange[10](k requires 0 <= k < 10 => PriceRange(Labels[k], 0));
    assert buckets[..] == Ranges(Histogram([]));
    for i := 0 to |ts|
      invariant buckets[..] == Ranges(Histogram(ts[..i]))
    {
      var t := ts[i];
      assert ts[..i + 1][..i] == ts[..i] && ts[..i + 1][i] == t;
      if IsCountable(t.price) {
        var k := BucketIndex(ParseFloat(t.price));
        buckets[k] := buckets[k].(count := buckets[k].count + 1);
      }
    }
    assert ts[..|ts|] == ts;
    ranges := buckets[..];
  }

  /** Each count is the number of records whose price falls in that bucket. */
  lemma {:induction false} HistogramCounts(ts: seq<Record>, k: nat)
    requires k < 10
    ensures Histogram(ts)[k] == |Filter(ts, (r: Record) => InBucket(r, k))|
  {
    if ts != [] {
      var init, last := ts[..|ts| - 1], ts[|ts| - 1];
      assert ts == init + [last];
      HistogramCounts(init, k);
      FilterSnoc(init, last, (r: Record) => InBucket(r, k));
    }
  }

  function Sum(h: seq<nat>): nat {
    if h == [] then 0 else Sum(h[..|h| - 1]) + h[|h| - 1]
  }

  lemma {:induction false} SumBump(h: seq<nat>, k: nat)
    requires k < |h|
    ensures Sum(Bump(h, k)) == Sum(h) + 1
  {
    var b := Bump(h, k);
    assert b[..|b| - 1] == if k < |h| - 1 then Bump(h[..|h| - 1], k) else h[..|h| - 1];
    if k < |h| - 1 {
      SumBump(h[..|h| - 1], k);
    }
  }

  lemma {:induction false} SumZeros(n: nat)
    ensures Sum(seq(n, _ => 0)) == 0
  {
    if n > 0 {
      assert seq(n, _ => 0)[..n - 1] == seq(n - 1, _ => 0);
      SumZeros(n - 1);
    }
  }

  /** The counts add up to the number of records with a truthy numeric price: no such record is lost or counted twice. */
  lemma {:induction false} HistogramTotal(ts: seq<Record>)
    ensures Sum(Histogram(ts)) == |Filter(ts, (r: Record) => IsCountable(r.price))|
  {
    if ts == [] {
      SumZeros(10);
    } else {
      var init, last := ts[..|ts| - 1], ts[|ts| - 1];
      assert ts == init + [last];
      HistogramTotal(init);
      FilterSnoc(init, last, (r: Record) => IsCountable(r.price));
      if IsCountable(last.price) {
        SumBump(Histogram(init), BucketIndex(ParseFloat(last.price)));
      }
    }
  }

  /** Prices 100, 101 and 950 fill "0 - 100", "101 - 200" and "901 - above" once each. */
  lemma PriceRangesExample(a: Record, b: Record, c: Record)
    requires a.price == Num(Decimal(100, 0)) && b.price == Num(Decimal(101, 0)) && c.price == Num(Decimal(950, 0))
    ensures Histogram([a, b, c]) == [1, 1, 0, 0, 0, 0, 0, 0, 0, 1]
  {
    assert [a, b, c][..2] == [a, b] && [a, b][..1] == [a] && [a][..0] == [];
    assert DecimalValue(a.price.num) == 100.0 && DecimalValue(b.price.num) == 101.0;
    assert DecimalValue(c.price.num) == 950.0;
    assert Histogram([]) == [0, 0, 0, 0, 0, 0, 0, 0, 0, 0];
    assert Histogram([a]) == [1, 0, 0, 0, 0, 0, 0, 0, 0, 0];
    assert Histogram([a, b]) == [1, 1, 0, 0, 0, 0, 0, 0, 0, 0];
  }
}
