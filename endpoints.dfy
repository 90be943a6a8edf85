/** The request handlers: parameter defaults, the missing-`month` guard, and the combined view. */
module Endpoints {
  import opened Wrappers
  import opened Sequences
  import opened Transactions
  import opened MonthFilter
  import opened Search
  import opened Pagination
  import opened Statistics
  import opened PriceRanges
  import opened CategoryCounts

  /** The JSON body of a reply, or an error status with the fixed `{message}` body. */
  datatype Reply<T> = Ok(body: T) | Failure(status: nat, message: string)

  const MonthRequired: string := "Month parameter is required"
  const ServerError: string := "Server error"

  /** `if (month)`: the query parameter is given and not empty. */
  predicate Present(month: Option<string>) {
    month.Some? && month.value != ""
  }

  /** The listing before pagination: the month filter when `month` is given, then the search. */
  function Selection(ts: seq<Record>, month: Option<string>, search: string): (r: seq<Record>)
    ensures |r| <= |ts|
    ensures !Present(month) && search == "" ==> r == ts
  {
    var byMonth := if Present(month) then FilterByMonth(ts, month.value) else ts;
    SearchFilter(byMonth, search)
  }

  /** A record is selected exactly when it is in the dataset, sold in the month (when one is given) and matches the search. */
  lemma SelectionExact(ts: seq<Record>, month: Option<string>, search: string, x: Record)
    ensures x in Selection(ts, month, search) <==>
              x in ts && (Present(month) ==> InMonth(x, month.value)) && Matches(x, search)
  {
    var byMonth := if Present(month) then FilterByMonth(ts, month.value) else ts;
    if Present(month) {
      MonthFilterExact(ts, month.value, x);
    }
    if search != "" {
      SearchExact(byMonth, search, x);
    } else if x in byMonth {
      var i :| 0 <= i < |byMonth| && byMonth[i] == x;
      assert Matches(SearchFilter(byMonth, search)[i], search);
    }
  }

  /** Whether one record survives both filters of the listing. */
  predicate Selected(t: Record, month: Option<string>, search: string) {
    (Present(month) ==> InMonth(t, month.value)) && (search == "" || Matches(t, search))
  }

  /** The two chained filters are one order-keeping filter by both conditions: records keep their order and duplicates. */
  lemma SelectionIsOneFilter(ts: seq<Record>, month: Option<string>, search: string)
    ensures Selection(ts, month, search) == Filter(ts, (t: Record) => Selected(t, month, search))
  {
    var keep := (t: Record) => Selected(t, month, search);
    var bySearch := (t: Record) => Matches(t, search);
    if Present(month) {
      var byMonth := (t: Record) => InMonth(t, month.value);
      assert FilterByMonth(ts, month.value) == Filter(ts, byMonth);
      if search == "" {
        FilterSame(ts, byMonth, keep);
      } else {
        assert SearchFilter(Filter(ts, byMonth), search) == Filter(Filter(ts, byMonth), bySearch);
        FilterFilter(ts, byMonth, bySearch, keep);
      }
    } else if search == "" {
      FilterAll(ts, keep);
    } else {
      FilterSame(ts, bySearch, keep);
    }
  }

  /** The listing keeps the input order and every duplicate of a selected record. */
  lemma SelectionKeepsOrder(ts: seq<Record>, month: Option<string>, search: string, x: Record)
    ensures IsSubsequence(Selection(ts, month, search), ts)
    ensures multiset(Selection(ts, month, search))[x] == if Selected(x, month, search) then multiset(ts)[x] else 0
  {
    var keep := (t: Record) => Selected(t, month, search);
    SelectionIsOneFilter(ts, month, search);
    FilterIsSubsequence(ts, keep);
    FilterMultiplicity(ts, keep, x);
  }

  /** GET /api/product-transaction: `search` defaults to '', `page` to 1 and `perPage` to 10. */
  function ProductTransactions(ts: seq<Record>, month: Option<string>, search: Option<string>,
                               page: Option<int>, perPage: Option<int>): (r: Page<Record>)
    requires perPage.None? || perPage.value >= 1
    ensures r.totalTransactions == |Selection(ts, month, search.GetOr(""))|
    ensures r.currentPage == page.GetOr(1)
    ensures |r.transactions| <= perPage.GetOr(10)
    ensures exists a :: IsRunAt(r.transactions, Selection(ts, month, search.GetOr("")), a)
    ensures r.totalPages == CeilDiv(|Selection(ts, month, search.GetOr(""))|, perPage.GetOr(10))
    ensures page.GetOr(1) >= 1 ==>
              var selected, size := Selection(ts, month, search.GetOr("")), perPage.GetOr(10);
              var start := PageStart(page.GetOr(1), size);
              r.transactions == selected[Min(start, |selected|)..Min(start + size, |selected|)]
  {
    Paginate(Selection(ts, month, search.GetOr("")), page.GetOr(1), perPage.GetOr(10))
  }

  /** Every record on a page is in the dataset, sold in the month asked for, and matches the search. */
  lemma ListedRecordsQualify(ts: seq<Record>, month: Option<string>, search: Option<string>,
                             page: Option<int>, perPage: Option<int>)
    requires perPage.None? || perPage.value >= 1
    ensures forall x :: x in ProductTransactions(ts, month, search, page, perPage).transactions ==>
              x in ts && (Present(month) ==> InMonth(x, month.value)) && Matches(x, search.GetOr(""))
  {
    var selected := Selection(ts, month, search.GetOr(""));
    var listed := ProductTransactions(ts, month, search, page, perPage).transactions;
    forall x | x in listed
      ensures x in ts && (Present(month) ==> InMonth(x, month.value)) && Matches(x, search.GetOr(""))
    {
      RunMember(listed, selected, x);
      SelectionExact(ts, month, search.GetOr(""), x);
    }
  }

  /** The listing's pages `first` to `last`, each fetched with `page=k&perPage=perPage`, one after another. */
  function ListingPages(ts: seq<Record>, month: Option<string>, search: Option<string>, perPage: int,
                        first: int, last: int): seq<Record>
    requires perPage >= 1
    decreases last - first + 1
  {
    if first > last then []
    else ProductTransactions(ts, month, search, Some(first), Some(perPage)).transactions
         + ListingPages(ts, month, search, perPage, first + 1, last)
  }

  lemma {:induction false} ListingPagesArePages(ts: seq<Record>, month: Option<string>, search: Option<string>,
                                                perPage: int, first: int, last: int)
    requires perPage >= 1
    ensures ListingPages(ts, month, search, perPage, first, last)
            == Pages(Selection(ts, month, search.GetOr("")), perPage, first, last)
    decreases last - first + 1
  {
    if first <= last {
      ListingPagesArePages(ts, month, search, perPage, first + 1, last);
    }
  }

  /** Fetching pages 1 to `totalPages` of the listing gives back the whole selection in order. */
  lemma ListingPagesCoverSelection(ts: seq<Record>, month: Option<string>, search: Option<string>, perPage: int)
    requires perPage >= 1
    ensures var total := ProductTransactions(ts, month, search, Some(1), Some(perPage)).totalPages;
            ListingPages(ts, month, search, perPage, 1, total) == Selection(ts, month, search.GetOr(""))
  {
    var total := ProductTransactions(ts, month, search, Some(1), Some(perPage)).totalPages;
    ListingPagesArePages(ts, month, search, perPage, 1, total);
    AllPagesReproduceList(Selection(ts, month, search.GetOr("")), perPage);
  }

  /** GET /api/statistics. */
  method StatisticsEndpoint(ts: seq<Record>, month: Option<string>) returns (r: Reply<StatisticsResult>)
    ensures !Present(month) ==> r == Failure(400, MonthRequired)
    ensures Present(month) ==> r == Ok(StatisticsOf(FilterByMonth(ts, month.value)))
  {
    if !Present(month) {
      return Failure(400, MonthRequired);
    }
    var statistics := CalculateStatistics(ts, month.value);
    r := Ok(statistics);
  }

  /** The bar-chart body: the requested month echoed, with the ten price ranges. */
  datatype BarChartData = BarChartData(month: string, priceRanges: seq<PriceRange>)

  /** GET /api/bar-chart. */
  method BarChartEndpoint(ts: seq<Record>, month: Option<string>) returns (r: Reply<BarChartData>)
    ensures !Present(month) ==> r == Failure(400, MonthRequired)
    ensures Present(month) ==>
              r == Ok(BarChartData(month.value, Ranges(Histogram(FilterByMonth(ts, month.value)))))
  {
    if !Present(month) {
      return Failure(400, MonthRequired);
    }
    var filtered := FilterByMonth(ts, month.value);
    var priceRanges := CalculatePriceRanges(filtered);
    r := Ok(BarChartData(month.value, priceRanges));
  }

  /** GET /api/pie-chart. */
  method PieChartEndpoint(ts: seq<Record>, month: Option<string>) returns (r: Reply<seq<CategoryCount>>)
    ensures !Present(month) ==> r == Failure(400, MonthRequired)
    ensures Present(month) ==> r == Ok(PieChartData(Tally(FilterByMonth(ts, month.value))))
  {
    if !Present(month) {
      return Failure(400, MonthRequired);
    }
    var filtered := FilterByMonth(ts, month.value);
    var categoryCounts := CalculateCategoryCounts(filtered);
    r := Ok(PieChartData(categoryCounts));
  }

  /** One entry of the combined view's category list. */
  datatype NamedCount = NamedCount(name: string, count: nat)

  datatype PieChart = PieChart(categories: seq<NamedCount>)

  datatype CombinedData = CombinedData(statistics: StatisticsResult, barChartData: BarChartData, pieChartData: PieChart)

  /** `item => ({name: item.category, count: item.count})` over the list. */
  function Rename(items: seq<CategoryCount>): (r: seq<NamedCount>)
    ensures |r| == |items|
  {
    seq(|items|, i requires 0 <= i < |items| => NamedCount(items[i].category, items[i].count))
  }

  /** The reverse reshaping. */
  function Unname(items: seq<NamedCount>): (r: seq<CategoryCount>)
    ensures |r| == |items|
  {
    seq(|items|, i requires 0 <= i < |items| => CategoryCount(items[i].name, items[i].count))
  }

  /** Renaming keeps order, names and counts: undoing it gives back the pie list. */
  lemma RenameLosesNothing(items: seq<CategoryCount>)
    ensures Unname(Rename(items)) == items
  {
  }

  /** GET /api/combined-data: the three views for one month. A rejected sub-request makes the whole reply a 500. */
  method CombinedDataEndpoint(ts: seq<Record>, month: Option<string>) returns (r: Reply<CombinedData>)
    ensures !Present(month) ==> r == Failure(500, ServerError)
    ensures Present(month) ==> r.Ok?
    ensures Present(month) ==> r.body.statistics == StatisticsOf(FilterByMonth(ts, month.value))
    ensures Present(month) ==>
              r.body.barChartData == BarChartData(month.value, Ranges(Histogram(FilterByMonth(ts, month.value))))
    ensures Present(month) ==>
              Unname(r.body.pieChartData.categories) == PieChartData(Tally(FilterByMonth(ts, month.value)))
  {
    var statisticsResponse := StatisticsEndpoint(ts, month);
    var barChartResponse := BarChartEndpoint(ts, month);
    var pieChartResponse := PieChartEndpoint(ts, month);
    if statisticsResponse.Failure? || barChartResponse.Failure? || pieChartResponse.Failure? {
      return Failure(500, ServerError);
    }
    RenameLosesNothing(pieChartResponse.body);
    r := Ok(CombinedData(statisticsResponse.body, barChartResponse.body, PieChart(Rename(pieChartResponse.body))));
  }
}
