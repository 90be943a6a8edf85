# Transaction dashboard back end — verified model

The back end of the transaction dashboard is a small Express server. It fetches a JSON dataset of product
transactions, each with title, description, price, category, image, `sold` and `dateOfSale`. It answers five GET
endpoints from that data:

- `/api/product-transaction` — the month filter, then a case-insensitive text search over title and description
  plus a substring search over the printed price, then `page`/`perPage` pagination;
- `/api/statistics` — the sale amount, sold items and not-sold items of a month;
- `/api/bar-chart` — the month's records bucketed into ten price ranges, with the month echoed back;
- `/api/pie-chart` — the month's records counted per category, in first-seen order;
- `/api/combined-data` — the three month views above combined into one body. The category list is reshaped to
  `{name, count}`.

This project models that in-memory pipeline in Dafny and proves what each stage promises. The network fetch is
replaced by a parameter `ts: seq<Record>`, the dataset as it arrived.

Modules, one file each:

| file | module | what it models |
|---|---|---|
| `wrappers.dfy` | `Wrappers` | `Option`, with `GetOr` for destructuring defaults |
| `sequences.dfy` | `Sequences` | `Array.prototype.filter` as `Filter`, and its order-, membership- and multiplicity-keeping lemmas |
| `text.dfy` | `Text` | ASCII `toLowerCase`, `String.prototype.includes`, decimal digit strings |
| `numbers.dfy` | `Numbers` | JSON numbers as exact decimals, and `Number.prototype.toString` in plain notation |
| `transactions.dfy` | `Transactions` | the record, JSON field values, truthiness, `isNaN`, `parseFloat`, NaN-absorbing addition |
| `dates.dfy` | `Dates` | `moment(d, 'YYYY-MM-DD').format('MM')`, including the string `"Invalid date"` |
| `month_filter.dfy` | `MonthFilter` | `filterByMonth` |
| `search.dfy` | `Search` | the listing's search filter |
| `pagination.dfy` | `Pagination` | `slice`, `Math.ceil`, and the page object |
| `statistics.dfy` | `Statistics` | `calculateStatistics` (a loop over the month's records) |
| `price_ranges.dfy` | `PriceRanges` | `calculatePriceRanges` (an array of ten counters bumped in place) |
| `category_counts.dfy` | `CategoryCounts` | `calculateCategoryCounts` (a dictionary updated in a loop) and the pie-chart flattening |
| `endpoints.dfy` | `Endpoints` | the five handlers: defaults, the 400 guard, the combined view |

The three `forEach` loops of the source (statistics, price ranges, category counts) are Dafny methods with
`while`/`for` loops. Each loop is proved equal to a left-fold specification function (`StatisticsOf`, `Histogram`,
`Tally`), and the properties are lemmas about those functions.
`calculatePriceRanges` keeps its mutable array of ten `{range, count}` objects as a Dafny `array<PriceRange>`.

Behaviour of the code that its comments and names do not suggest is modelled as written:

- A `month` query value of `"Invalid date"` selects exactly the records whose date does not parse. This is because
  moment formats an invalid date as that string (`MonthFilter.InvalidDateMonthKeepsUnparseable`).
- Any other value that is not a two-digit month `01`–`12`, such as `"7"` or `"13"`, selects nothing; no error is
  raised (`MonthFilter.OtherMonthSelectsNothing`).
- Without a `month`, `/api/combined-data` does not answer 400. Each sub-request is rejected with 400, `axios` throws,
  and the handler answers 500 `"Server error"`.
- A boolean `sold: true` counts as one sold item (`0 + true === 1`). A boolean `price: true` passes the
  `price && !isNaN(price)` guard, but `parseFloat(true)` is NaN. So the month's total sale amount becomes NaN
  (`Statistics.SaleAmountNaN`), and the record lands in the `901 - above` bucket.

## Model

| member | source | states |
|---|---|---|
| Sequences.Filter | backEnd/index.js:12 | the filtered list is no longer than the input and every kept element satisfies the predicate |
| Sequences.FilterAppend | backEnd/index.js:12 | filtering a concatenation is the concatenation of the filtered parts |
| Sequences.FilterSnoc | backEnd/index.js:12 | one more element is appended exactly when it satisfies the predicate |
| Sequences.FilterIsSubsequence | backEnd/index.js:12 | filtering keeps the input order (the result is a subsequence) |
| Sequences.FilterMultiplicity | backEnd/index.js:12 | each element is kept with all its occurrences if it passes, and none otherwise |
| Sequences.FilterMembership | backEnd/index.js:12 | an element is in the result iff it is in the input and passes |
| Sequences.FilterSame | backEnd/index.js:26-41 | two predicates that agree on every element select the same list |
| Sequences.FilterAll | backEnd/index.js:26-41 | a predicate true of every element keeps the whole list |
| Sequences.FilterFilter | backEnd/index.js:26-41 | filtering by `p` and then by `q` is one filter by `p && q` |
| Text.ToLower | backEnd/index.js:37-38 | `toLowerCase` keeps the length, turns each letter `A`–`Z` into its lower-case letter (code + 32) and leaves every other character alone |
| Text.ToLowerIdempotent | backEnd/index.js:37-38 | lower-casing twice is lower-casing once |
| Text.ContainsAt | backEnd/index.js:37-39 | `includes` holds iff the needle occurs at some position of the text |
| Text.DigitChar | backEnd/index.js:39 | a digit character has the digit's value |
| Text.NatToString | backEnd/index.js:39 | a non-negative integer prints as a non-empty digit string without a leading zero |
| Text.NatToStringRoundTrip | backEnd/index.js:39 | reading the printed digits back gives the number |
| Numbers.ZeroIffZeroDigits | backEnd/index.js:73 | a decimal is zero iff its digits are zero (the falsy number) |
| Numbers.Normalize | backEnd/index.js:39 | dropping trailing fractional zeros keeps the value and leaves no trailing zero |
| Numbers.ZeroPad | backEnd/index.js:39 | left padding to exactly `width` characters (or none when the text is already that long), keeping the text as a suffix and adding only zeros |
| Numbers.NumberToString | backEnd/index.js:39 | `toString` of a number: the normalized decimal with its sign, integer digits and fraction digits; pinned by `NumberToStringWhole` and `NumberToStringIgnoresTrailingZero` |
| Numbers.NumberToStringWhole | backEnd/index.js:39 | a whole number prints as its decimal digits |
| Numbers.NumberToStringIgnoresTrailingZero | backEnd/index.js:39 | how a number prints does not depend on trailing zeros in its notation (`1.50` prints like `1.5`) |
| Transactions.Truthy | backEnd/index.js:73 | JavaScript truthiness of a field value: absent, `''`, `false` and `0` are falsy |
| Transactions.IsNaN | backEnd/index.js:73 | the global `isNaN` on a field value: true for absent values and for non-numeric text |
| Transactions.IsCountable | backEnd/index.js:73 | the guard `v && !isNaN(v)` used for `price` at lines 73 and 134 and for `sold` at line 78 |
| Transactions.CountableValues | backEnd/index.js:73 | `v && !isNaN(v)` holds exactly for `true` and for the non-zero numbers |
| Transactions.ParseFloat | backEnd/index.js:74 | `parseFloat` of a guarded value is NaN exactly for the boolean, and a number parses to its own value |
| Transactions.Add | backEnd/index.js:74 | a sum is NaN iff one of its operands is, and otherwise it is the sum of the two values |
| Transactions.PriceText | backEnd/index.js:35-39 | a falsy price is searched as the empty string; a truthy one as its printed number, its own text, or `true` |
| Transactions.Quantity | backEnd/index.js:79 | what `totalSoldItems += sold` adds: a number its own value, `true` one (`0 + true === 1`); never zero |
| Dates.ParseDate | backEnd/index.js:12 | a date-shaped prefix parses exactly when its month is 1–12 and its day lies within that month, and then to the fields written in it; anything else is rejected |
| Dates.FourDigits | backEnd/index.js:12 | a year below 10000 written as four digits with its value |
| Dates.FourDigitValue | backEnd/index.js:12 | a four-digit string's value from its digits, most significant first |
| Dates.FormatDate | backEnd/index.js:12 | a date written `YYYY-MM-DD` is ten characters long |
| Dates.ParseFormatRoundTrip | backEnd/index.js:12 | a valid date written `YYYY-MM-DD`, followed by any text, parses back to exactly that date |
| Dates.TwoDigits | backEnd/index.js:12 | `format('MM')` prints a month as two digits with its value |
| Dates.TwoDigitValue | backEnd/index.js:12 | a two-digit string has value ten times its first digit plus its second |
| Dates.FormatMonth | backEnd/index.js:12 | the result is `"Invalid date"` iff the date is absent or does not parse, otherwise two digits `01`–`12` |
| Dates.FormatMonthIsWrittenMonth | backEnd/index.js:12 | for a valid date the formatted month is the month written in the date |
| Dates.July15Example | backEnd/index.js:12 | `2023-07-15` formats to `07` |
| Dates.FormatMonthReadsPrefix | backEnd/index.js:12 | only the leading ten characters decide the month; text after the date is ignored |
| Dates.November27Example | backEnd/index.js:12 | `2021-11-27` formats to `11` |
| Dates.TimestampExample | backEnd/index.js:12 | the timestamp `2021-11-27T20:29:54+05:30` formats to `11` |
| Dates.February30Example | backEnd/index.js:12 | `2021-02-30` does not parse and formats to `"Invalid date"` |
| MonthFilter.FilterByMonth | backEnd/index.js:11-13 | only records of the requested month are kept, and the result is no longer than the input |
| MonthFilter.MonthFilterExact | backEnd/index.js:11-13 | the month filter keeps, in order and with multiplicity, exactly the records of that month |
| MonthFilter.UnparseableNeverKept | backEnd/index.js:11-13 | a record without a valid date is never kept for a real month |
| MonthFilter.InvalidDateMonthKeepsUnparseable | backEnd/index.js:11-13 | the month `"Invalid date"` keeps exactly the records whose date is absent or unparseable |
| MonthFilter.OtherMonthSelectsNothing | backEnd/index.js:11-13 | a month value that is neither `01`–`12` nor `"Invalid date"` selects nothing |
| MonthFilter.YearIgnored | backEnd/index.js:11-13 | two valid dates with the same written month are kept or dropped together, whatever their years |
| Search.Matches | backEnd/index.js:32-40 | the search predicate: lower-cased title or description contains the lower-cased query, or the price text contains the query as typed |
| Search.SearchFilter | backEnd/index.js:31-41 | the empty query leaves the list unchanged; otherwise every kept record matches and none are added |
| Search.SearchExact | backEnd/index.js:31-41 | a non-empty query keeps, in order and with multiplicity, exactly the matching records |
| Search.FalsyPriceNeverMatches | backEnd/index.js:35-39 | for a falsy price only the title and description can match |
| Search.TitleMatchIgnoresCase | backEnd/index.js:37 | a title containing the query written in any case (same letters up to case) matches |
| Search.UpperCaseTitleExample | backEnd/index.js:37 | the query `item` matches the title `ITEM99` |
| Search.PriceText199 | backEnd/index.js:35-39 | the price 199 is searched as the text `199` |
| Search.PriceSearchExample | backEnd/index.js:39 | the query `99` matches the price 199 through its printed form |
| Search.TitleSearchExample | backEnd/index.js:37 | the query `99` matches the title `item99` |
| Pagination.SliceIndex | backEnd/index.js:46 | `slice` clamps a non-negative index to the list length, and counts a negative index back from the end, clamping at 0 |
| Pagination.JsSlice | backEnd/index.js:46 | a slice is one contiguous run of the list, at most `end - start` long, and the plain slice for non-negative bounds |
| Pagination.CeilDiv | backEnd/index.js:52 | `Math.ceil(n / d)` is the fewest pages of `d` entries that hold `n` |
| Pagination.PageStart | backEnd/index.js:44 | the start index of page 1 onward is not negative |
| Pagination.Paginate | backEnd/index.js:44-54 | a page holds at most `perPage` entries of one run of the list; the totals are the list length and its page count; page `k >= 1` is entries `(k-1)*perPage` up to `k*perPage` |
| Pagination.PageAfterLastIsEmpty | backEnd/index.js:44-52 | a page number past `totalPages` yields no transactions |
| Pagination.StartAfterLastPage | backEnd/index.js:44-52 | every page past the last one starts at or past the end of the list |
| Pagination.RunMember | backEnd/index.js:46 | whatever is in a slice is in the list |
| Pagination.PagesStep | backEnd/index.js:44-46 | page `k` followed by the rest of the list from page `k + 1` is the rest from page `k` |
| Pagination.PagesFrom | backEnd/index.js:44-52 | pages `k` to `totalPages` together are the list from page `k` on |
| Pagination.AllPagesReproduceList | backEnd/index.js:44-52 | pages 1 to `totalPages` concatenated give back the whole list, in order |
| Statistics.SaleAmount | backEnd/index.js:67-75 | the running `totalSaleAmount` over the records, starting at 0; characterised by the lemmas below |
| Statistics.SoldItems | backEnd/index.js:68-79 | the running `totalSoldItems`, starting at 0 |
| Statistics.NotSoldItems | backEnd/index.js:69-82 | the running `totalNotSoldItems`: never more than the number of records |
| Statistics.StatisticsSnoc | backEnd/index.js:71-83 | one more record adds its price to the sale amount when the price passes the guard; adds its `sold` quantity when `sold` passes the guard, and otherwise counts one more not-sold record |
| Statistics.AccumulateStatistics | backEnd/index.js:67-89 | the loop computes the three totals of its input |
| Statistics.CalculateStatistics | backEnd/index.js:63-90 | the statistics are the three totals of the month's records |
| Statistics.NotSoldComplementsSold | backEnd/index.js:78-82 | not-sold items plus records with a countable `sold` is the number of records |
| Statistics.SaleAmountAppend | backEnd/index.js:71-75 | the sale amount of two lists together is the sum of their amounts |
| Statistics.SoldItemsAppend | backEnd/index.js:77-79 | the sold items of two lists together is the sum of their counts |
| Statistics.SaleAmountOverCountablePrices | backEnd/index.js:73-74 | only records whose price passes the guard contribute to the sale amount |
| Statistics.SoldItemsOverCountableSold | backEnd/index.js:78-79 | only records whose `sold` passes the guard contribute to the sold items |
| Statistics.SaleAmountNaN | backEnd/index.js:73-74 | the sale amount is NaN iff some record has the price `true` |
| Statistics.StatisticsExample | backEnd/index.js:63-90 | prices 100, "bad", 50 with `sold` 2, 0, absent give 150, 2 sold and 2 not sold |
| PriceRanges.BucketIndex | backEnd/index.js:136-145 | the `<=` ladder always selects one of the ten buckets |
| PriceRanges.BucketIndexIsInterval | backEnd/index.js:136-145 | a price lands in bucket `k` iff it lies in that bucket's interval: `<= 100`, then `(100k, 100(k+1)]`, then `> 900` |
| PriceRanges.Bump | backEnd/index.js:136-145 | `priceRanges[k].count++`: counter `k` goes up by one and every other counter is unchanged |
| PriceRanges.Histogram | backEnd/index.js:133-147 | the bucket counts are always ten |
| PriceRanges.Ranges | backEnd/index.js:120-131 | the ten ranges carry the fixed labels in order, each with its bucket's count |
| PriceRanges.CalculatePriceRanges | backEnd/index.js:119-150 | the in-place counting over the array gives the labelled histogram of the records |
| PriceRanges.HistogramCounts | backEnd/index.js:133-147 | bucket `k` counts exactly the records whose guarded price falls in bucket `k` |
| PriceRanges.SumBump | backEnd/index.js:136-145 | one increment raises the total by one |
| PriceRanges.SumZeros | backEnd/index.js:120-131 | the initial counters total zero |
| PriceRanges.HistogramTotal | backEnd/index.js:133-147 | the counts total the number of records whose price passes the guard |
| PriceRanges.PriceRangesExample | backEnd/index.js:119-150 | prices 100, 101 and 950 land in buckets 0, 1 and 9 |
| CategoryCounts.CategoryOf | backEnd/index.js:189-190 | `if (category)`: a record's category when present and not empty |
| CategoryCounts.Increment | backEnd/index.js:191 | `categoryCounts[c]` becomes its old value, or 0, plus one: the count of `c` goes up by one, all others are unchanged, and a new key is appended |
| CategoryCounts.Tally | backEnd/index.js:186-193 | the dictionary after the loop over the records; characterised by `TallyCounts`, `TallyKeys` and `TallyFirstSeenOrder` |
| CategoryCounts.IncrementWellFormed | backEnd/index.js:191 | an increment keeps keys distinct, in step with the counts, and all counts positive |
| CategoryCounts.TallyWellFormed | backEnd/index.js:185-196 | the counted dictionary is always well formed |
| CategoryCounts.CalculateCategoryCounts | backEnd/index.js:185-196 | the loop computes the tally of the records |
| CategoryCounts.TallyCounts | backEnd/index.js:188-193 | the count of a category is the number of records carrying it |
| CategoryCounts.TallyKeys | backEnd/index.js:188-193 | a category is a key iff some record carries it |
| CategoryCounts.SumOverUpdateOther | backEnd/index.js:191 | changing a key outside the list leaves the list's total alone |
| CategoryCounts.SumOverIncrement | backEnd/index.js:191 | incrementing one listed key raises the total by one |
| CategoryCounts.IncrementAddsOne | backEnd/index.js:191 | each counted record raises the dictionary's total by one |
| CategoryCounts.TallyTotal | backEnd/index.js:185-196 | the counts total the number of records that have a category |
| CategoryCounts.PieChartData | backEnd/index.js:218-221 | entry `i` is the `i`-th key with that key's count; categories distinct; a category has an entry iff it is a key |
| CategoryCounts.TallyFirstSeenOrder | backEnd/index.js:188-193 | the keys are in order of first occurrence: an earlier key occurs at some record before any record of a later key |
| CategoryCounts.PieChartFirstSeenOrder | backEnd/index.js:185-221 | the pie list names the categories in the order they first occur among the records |
| CategoryCounts.PieChartOfRecords | backEnd/index.js:185-221 | a category appears in the pie data iff some record carries it, and its count is the number of such records |
| CategoryCounts.PieChartExample | backEnd/index.js:185-221 | categories A, A, B and none give `[{A, 2}, {B, 1}]`, in first-seen order |
| Endpoints.Present | backEnd/index.js:97 | `if (!month)`: the month is present and not empty (also lines 156 and 202) |
| Endpoints.Selection | backEnd/index.js:25-41 | the selection is no longer than the data, and is the whole data without month and search |
| Endpoints.SelectionIsOneFilter | backEnd/index.js:25-41 | the month filter followed by the search filter is one order-keeping filter by both conditions |
| Endpoints.SelectionKeepsOrder | backEnd/index.js:25-41 | the selection keeps the input order, and each selected record with all its duplicates |
| Endpoints.SelectionExact | backEnd/index.js:25-41 | a record is selected iff it is in the data, of the month (when given) and matches the search |
| Endpoints.ProductTransactions | backEnd/index.js:17-54 | with the defaults `search = ''`, `page = 1`, `perPage = 10`: `totalTransactions` is the selection's length, `totalPages` its page count, `currentPage` the requested page, and for a page `k >= 1` the transactions are selection entries `(k-1)*perPage` up to `k*perPage` |
| Endpoints.ListedRecordsQualify | backEnd/index.js:17-54 | every listed record is in the data, of the requested month and matches the search |
| Endpoints.ListingPagesArePages | backEnd/index.js:17-54 | the listings fetched for pages `first` to `last` are those pages of the selection |
| Endpoints.ListingPagesCoverSelection | backEnd/index.js:17-54 | fetching the listing for pages 1 to `totalPages` and joining the transactions gives the whole selection in order |
| Endpoints.StatisticsEndpoint | backEnd/index.js:94-115 | a missing or empty month gives 400 `Month parameter is required`; otherwise the month's statistics |
| Endpoints.BarChartEndpoint | backEnd/index.js:153-180 | a missing or empty month gives 400; otherwise the month echoed with the labelled histogram of that month |
| Endpoints.PieChartEndpoint | backEnd/index.js:199-229 | a missing or empty month gives 400; otherwise the pie data of the month's category tally |
| Endpoints.Rename | backEnd/index.js:250-253 | reshaping keeps one entry per pie entry |
| Endpoints.Unname | backEnd/index.js:250-253 | the reverse reshaping keeps one entry per item |
| Endpoints.RenameLosesNothing | backEnd/index.js:250-253 | renaming `category` to `name` keeps order and counts: undoing it gives the pie list back |
| Endpoints.CombinedDataEndpoint | backEnd/index.js:234-263 | without a month, 500 `Server error`; otherwise the three views of the month, with the pie entries renamed |

## Left out

- The HTTP layer is not modelled: Express routing, CORS, `app.listen`, the port, the `console` logging and the
  per-endpoint 500 catch blocks for a failed fetch.
- The `axios` fetch of the dataset is a parameter. All views read one given sequence, so a dataset that changes
  between fetches, or between the three concurrent sub-requests of the combined view, is not modelled.
- The combined view's `localhost` self-calls and `Promise.all` are modelled as plain calls. A sub-request that fails
  for a network reason is not modelled; only the 400 path to the 500 is.
- Dates.ParseDate: reads the leading `YYYY-MM-DD` and ignores what follows, as moment's non-strict parse does,
  so a time and zone after the date do not change the month. The rest of moment's forgiving parse is not
  modelled: one-digit fields, other separators, and non-string `dateOfSale` values.
- IEEE-754 floating point is not modelled. Sums are exact reals. Rounding, and `toString` in exponent notation
  (`|x| >= 1e21` or `< 1e-6`), are not modelled.
- Transactions.Value: a `Text` price or `sold` is a string that does not read as a number. Numeric strings
  (`"12"`, `" "`), and the string concatenation that `totalSoldItems += "3"` would do, are not modelled.
- Text.ToLower: lower-cases ASCII letters only. Unicode case mapping is not modelled.
- Endpoints.ProductTransactions: takes `page` and `perPage` as already parsed integers. `parseInt` of
  non-numeric text (NaN pages) is not modelled, and neither is trailing text such as `"2abc"`. `perPage` must be
  at least 1 (`requires`), because 0 and negative values give `Infinity` or negative page counts. The code also
  divides by the unparsed string in `Math.ceil(length / perPage)`; the model uses the parsed value.
- CategoryCounts.Tally: the JavaScript object is an insertion-ordered dictionary. Prototype keys (`__proto__`,
  `toString`) are not modelled, and neither is the rule that `Object.keys` lists integer-like keys first in numeric
  order.
- Transactions.Record: `category` is a string or absent. A truthy non-string category, which JavaScript turns into a
  key such as `"5"` or `"true"`, is not modelled.
- Transactions.Value: array and object values of `price` or `sold` are not modelled. For example, `[5]` passes the
  `v && !isNaN(v)` guard and `parseFloat` gives 5.
- The JSON serialisation of the replies is not modelled. For example, `res.json` writes a NaN `totalSaleAmount` as `null`.
- Query parameters are strings or absent. Repeated parameters that Express turns into arrays are not modelled.
- A truthy non-string title or description, which would make `toLowerCase` throw (a 500), is not modelled. Titles
  and descriptions are strings or absent.
- The React front end is not part of this model.
