/** `calculateStatistics`: sale amount, sold quantity and unsold record count over one month. */
module Statistics {
  import opened Sequences
  import opened Numbers
  import opened Transactions
  import opened MonthFilter

  datatype StatisticsResult = StatisticsResult(totalSaleAmount: Float, totalSoldItems: real, totalNotSoldItems: nat)

  /** The running `totalSaleAmount`: prices that pass `price && !isNaN(price)` are added through `parseFloat`. */
  function SaleAmount(ts: seq<Record>): Float {
    if ts == [] then Real(0.0)
    else
      var last := ts[|ts| - 1];
      var before := SaleAmount(ts[..|ts| - 1]);
      if IsCountable(last.price) then Add(before, ParseFloat(last.price)) else before
  }

  /** The running `totalSoldItems`: the `sold` values that pass the guard are added, so it sums quantities. */
  function SoldItems(ts: seq<Record>): real {
    if ts == [] then 0.0
    else
      var last := ts[|ts| - 1];
      var before := SoldItems(ts[..|ts| - 1]);
      if IsCountable(last.sold) then before + Quantity(last.sold) else before
  }

  /** The running `totalNotSoldItems`: one for each record whose `sold` fails the guard. */
  function NotSoldItems(ts: seq<Record>): (n: nat)
    ensures n <= |ts|
  {
    if ts == [] then 0
    else NotSoldItems(ts[..|ts| - 1]) + (if IsCountable(ts[|ts| - 1].sold) then 0 else 1)
  }

  function StatisticsOf(ts: seq<Record>): StatisticsResult {
    StatisticsResult(SaleAmount(ts), SoldItems(ts), NotSoldItems(ts))
  }

  /** What one more record adds to each of the three totals. */
  lemma StatisticsSnoc(ts: seq<Record>, t: Record)
    ensures SaleAmount(ts + [t]) == if IsCountable(t.price) then Add(SaleAmount(ts), ParseFloat(t.price)) else SaleAmount(ts)
    ensures SoldItems(ts + [t]) == if IsCountable(t.sold) then SoldItems(ts) + Quantity(t.sold) else SoldItems(ts)
    ensures NotSoldItems(ts + [t]) == NotSoldItems(ts) + if IsCountable(t.sold) then 0 else 1
  {
    assert (ts + [t])[..|ts|] == ts;
  }

  /** The `forEach` pass: updates the three running totals one record at a time. */
  method AccumulateStatistics(filtered: seq<Record>) returns (s: StatisticsResult)
    ensures s == StatisticsOf(filtered)
  {
    var totalSaleAmount := Real(0.0);
    var totalSoldItems := 0.0;
    var totalNotSoldItems := 0;
    for i := 0 to |filtered|
      invariant totalSaleAmount == SaleAmount(filtered[..i])
      invariant totalSoldItems == SoldItems(filtered[..i])
      invariant totalNotSoldItems == NotSoldItems(filtered[..i])
    {
      var t := filtered[i];
      StatisticsSnoc(filtered[..i], t);
      assert filtered[..i + 1] == filtered[..i] + [t];
      if IsCountable(t.price) {
        totalSaleAmount := Add(totalSaleAmount, ParseFloat(t.price));
      }
      if IsCountable(t.sold) {
        totalSoldItems := totalSoldItems + Quantity(t.sold);
      } else {
        totalNotSoldItems := totalNotSoldItems + 1;
      }
    }
    assert filtered[..|filtered|] == filtered;
    s := StatisticsResult(totalSaleAmount, totalSoldItems, totalNotSoldItems);
  }

  /** `calculateStatistics(transactions, month)`: the month filter, then the pass over what it keeps. */
  method CalculateStatistics(ts: seq<Record>, month: string) returns (s: StatisticsResult)
    ensures s == StatisticsOf(FilterByMonth(ts, month))
  {
    var filtered := FilterByMonth(ts, month);
    s := AccumulateStatistics(filtered);
  }

  predicate PriceCounts(r: Record) { IsCountable(r.price) }

  predicate SoldCounts(r: Record) { IsCountable(r.sold) }

  /** Unsold records and sold records together are all the records: a count of records, not of quantities. */
  lemma {:induction false} NotSoldComplementsSold(ts: seq<Record>)
    ensures NotSoldItems(ts) + |Filter(ts, SoldCounts)| == |ts|
  {
    if ts != [] {
      var init, last := ts[..|ts| - 1], ts[|ts| - 1];
      assert ts == init + [last];
      NotSoldComplementsSold(init);
      FilterSnoc(init, last, SoldCounts);
    }
  }

  /** Splitting the records splits the sale amount: the total is the sum of the parts. */
  lemma {:induction false} SaleAmountAppend(a: seq<Record>, b: seq<Record>)
    ensures SaleAmount(a + b) == Add(SaleAmount(a), SaleAmount(b))
    decreases |b|
  {
    if b == [] {
      assert a + b == a;
    } else {
      var init, last := b[..|b| - 1], b[|b| - 1];
      assert (a + b)[..|a + b| - 1] == a + init && (a + b)[|a + b| - 1] == last;
      SaleAmountAppend(a, init);
    }
  }

  /** Splitting the records splits the sold quantity. */
  lemma {:induction false} SoldItemsAppend(a: seq<Record>, b: seq<Record>)
    ensures SoldItems(a + b) == SoldItems(a) + SoldItems(b)
    decreases |b|
  {
    if b == [] {
      assert a + b == a;
    } else {
      var init, last := b[..|b| - 1], b[|b| - 1];
      assert (a + b)[..|a + b| - 1] == a + init && (a + b)[|a + b| - 1] == last;
      SoldItemsAppend(a, init);
    }
  }

  /** The sale amount is taken over the records with a truthy numeric price only. */
  lemma {:induction false} SaleAmountOverCountablePrices(ts: seq<Record>)
    ensures SaleAmount(ts) == SaleAmount(Filter(ts, PriceCounts))
  {
    if ts != [] {
      var init, last := ts[..|ts| - 1], ts[|ts| - 1];
      assert ts == init + [last];
      SaleAmountOverCountablePrices(init);
      FilterSnoc(init, last, PriceCounts);
      if PriceCounts(last) {
        var f := Filter(init, PriceCounts) + [last];
        assert f[..|f| - 1] == Filter(init, PriceCounts);
      }
    }
  }

  /** The sold quantity is taken over the records with a truthy numeric `sold` only. */
  lemma {:induction false} SoldItemsOverCountableSold(ts: seq<Record>)
    ensures SoldItems(ts) == SoldItems(Filter(ts, SoldCounts))
  {
    if ts != [] {
      var init, last := ts[..|ts| - 1], ts[|ts| - 1];
      assert ts == init + [last];
      SoldItemsOverCountableSold(init);
      FilterSnoc(init, last, SoldCounts);
      if SoldCounts(last) {
        var f := Filter(init, SoldCounts) + [last];
        assert f[..|f| - 1] == Filter(init, SoldCounts);
      }
    }
  }

  /** The sale amount is NaN exactly when some record's price is the boolean `true` (`parseFloat(true)` is NaN). */
  lemma {:induction false} SaleAmountNaN(ts: seq<Record>)
    ensures SaleAmount(ts).NaN? <==> exists i :: 0 <= i < |ts| && ts[i].price == Flag(true)
  {
    if ts != [] {
      var init, last := ts[..|ts| - 1], ts[|ts| - 1];
      SaleAmountNaN(init);
      if exists i :: 0 <= i < |init| && init[i].price == Flag(true) {
        var i :| 0 <= i < |init| && init[i].price == Flag(true);
        assert ts[i] == init[i];
      }
      if exists i :: 0 <= i < |ts| && ts[i].price == Flag(true) {
        var i :| 0 <= i < |ts| && ts[i].price == Flag(true);
        if i < |init| {
          assert init[i] == ts[i];
        }
      }
    }
  }

  /** The records {price: 100, sold: 2}, {price: "bad", sold: 0} and {price: 50} give a sale amount of 150,
      2 items sold and 2 records not sold. */
  lemma StatisticsExample(a: Record, b: Record, c: Record)
    requires a.price == Num(Decimal(100, 0)) && a.sold == Num(Decimal(2, 0))
    requires b.price == Text("bad") && b.sold == Num(Decimal(0, 0))
    requires c.price == Num(Decimal(50, 0)) && c.sold == Missing
    ensures StatisticsOf([a, b, c]) == StatisticsResult(Real(150.0), 2.0, 2)
  {
    assert [a, b, c][..2] == [a, b] && [a, b][..1] == [a] && [a][..0] == [];
    assert DecimalValue(Decimal(100, 0)) == 100.0 && DecimalValue(Decimal(50, 0)) == 50.0;
    assert DecimalValue(Decimal(2, 0)) == 2.0;
    assert SaleAmount([a]) == Real(100.0);
    assert SaleAmount([a, b]) == Real(100.0);
    assert SoldItems([a]) == 2.0 && NotSoldItems([a]) == 0;
    assert !IsCountable(b.sold) && !IsCountable(c.sold);
    assert SoldItems([a, b]) == 2.0 && NotSoldItems([a, b]) == 1;
  }
}
