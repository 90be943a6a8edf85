/** `filterByMonth`: the records sold in a given calendar month of any year. */
module MonthFilter {
  import opened Wrappers
  import opened Sequences
  import opened Transactions
  import opened Dates

  /** The record's sale date prints, as `MM`, the requested month string. */
  predicate InMonth(r: Record, month: string) {
    FormatMonth(r.dateOfSale) == month
  }

  function FilterByMonth(ts: seq<Record>, month: string): (r: seq<Record>)
    ensures |r| <= |ts|
    ensures forall i :: 0 <= i < |r| ==> InMonth(r[i], month)
  {
    Filter(ts, (t: Record) => InMonth(t, month))
  }

  /** The result lists, in input order, every occurrence of a record of that month and nothing else. */
  lemma MonthFilterExact(ts: seq<Record>, month: string, x: Record)
    ensures IsSubsequence(FilterByMonth(ts, month), ts)
    ensures x in FilterByMonth(ts, month) <==> x in ts && InMonth(x, month)
    ensures multiset(FilterByMonth(ts, month))[x] == if InMonth(x, month) then multiset(ts)[x] else 0
  {
    var p := (t: Record) => InMonth(t, month);
    FilterIsSubsequence(ts, p);
    FilterMembership(ts, p, x);
    FilterMultiplicity(ts, p, x);
  }

  /** Unless the month asked for is literally "Invalid date", a record whose date does not parse is never kept. */
  lemma UnparseableNeverKept(ts: seq<Record>, month: string, x: Record)
    requires month != InvalidDate
    requires x.dateOfSale.None? || ParseDate(x.dateOfSale.value).None?
    ensures x !in FilterByMonth(ts, month)
  {
    MonthFilterExact(ts, month, x);
  }

  /** Asking for "Invalid date" keeps exactly the records whose date does not parse: `moment` prints that text for them. */
  lemma InvalidDateMonthKeepsUnparseable(ts: seq<Record>, x: Record)
    ensures x in FilterByMonth(ts, InvalidDate) <==>
              x in ts && (x.dateOfSale.None? || ParseDate(x.dateOfSale.value).None?)
  {
    MonthFilterExact(ts, InvalidDate, x);
  }

  /** A month other than "01".."12" (say "7" or "13") selects nothing. */
  lemma OtherMonthSelectsNothing(ts: seq<Record>, month: string)
    requires month != InvalidDate
    requires !(|month| == 2 && AllDigits(month) && 1 <= Text.DigitsValue(month) <= 12)
    ensures FilterByMonth(ts, month) == []
  {
    var r := FilterByMonth(ts, month);
    assert r != [] ==> InMonth(r[0], month);
  }

  /** The year plays no part: two records whose dates carry the same written month are kept or dropped together. */
  lemma YearIgnored(ts: seq<Record>, month: string, a: Record, b: Record)
    requires a in ts && b in ts
    requires a.dateOfSale.Some? && ParseDate(a.dateOfSale.value).Some?
    requires b.dateOfSale.Some? && ParseDate(b.dateOfSale.value).Some?
    requires a.dateOfSale.value[5..7] == b.dateOfSale.value[5..7]
    ensures a in FilterByMonth(ts, month) <==> b in FilterByMonth(ts, month)
  {
    FormatMonthIsWrittenMonth(a.dateOfSale.value);
    FormatMonthIsWrittenMonth(b.dateOfSale.value);
    MonthFilterExact(ts, month, a);
    MonthFilterExact(ts, month, b);
  }
}
