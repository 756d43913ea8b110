# Stock dashboard service: a Dafny model of its data core

The service is a small Flask back end. It keeps users' holdings and watch
lists, and it asks a market-data provider (Alpha Vantage) for quotes and price
histories. This project models the service's deterministic core, in
`backend/app.py`:

- **Quote decoding** (`FinancialDataService.get_stock_quote`, module `Quotes`).
  The provider's `"Global Quote"` object becomes a quote record, or nothing.
  The record is built in a single dictionary literal. A missing key, a price
  that `float` cannot read, or a volume that `int` cannot read raises, and the
  handler turns the exception into `None`. The change percentage is
  `rstrip('%')`-ed and stays text.
- **Price histories** (`get_historical_data`, module `Series`):
  - The requested period picks the provider function. Only `"1year"` asks for
    the monthly series; every other period, listed or not, asks for the daily
    one.
  - The reply's daily series is taken whenever its key is present. Otherwise
    the monthly one is taken.
  - The series must be truthy.
  - Only the first 30 entries, in the provider's document order, are read.
  - Each entry is decoded: its key with `strptime('%Y-%m-%d')` and its
    `"4. close"` with `float`.
  - Both lists are reversed. The dates are written back with `strftime`.
  - One bad entry discards the whole history.
- **Dashboard valuation** (`dashboard_overview`, module `Valuation`):
  - Each holding whose quote arrived becomes a line with its investment,
    current value, gain or loss, and percentage. Holdings without a quote are
    skipped.
  - The totals are accumulated and summarised.
  - The per-line percentage divides by the investment without a guard. Only
    the overall percentage is guarded.
- **Watch list and report rows** (`get_watchlist` and
  `generate_portfolio_report`, module `Projections`).

Supporting modules:

- `Wrappers` holds `Option` and `Result`.
- `Numbers` models Python's `int(str)` and `float(str)` on plain decimal text,
  with reference formatters as their inverses.
- `Text` models `rstrip` of one character.
- `Provider` models the decoded JSON reply and Python's `in`, subscript,
  truthiness, `float()` and `int()` on it. Objects keep their members in
  document order. For objects without repeated keys this is the order of
  `dict.items()`, which gives "the first 30 entries" its meaning.
- `Dates` models `strptime` and `strftime` for `%Y-%m-%d`.
- `Sequences` holds slicing, reversal, the keep-if-present filter, and an
  all-or-nothing traversal that stands for a loop whose body may raise.

The network is not modelled. A provider call is the `Response` value it
produced: `Unavailable` when the request or its JSON decoding raised,
otherwise `Received(body)`. `HistoricalData` takes the provider as a function
parameter from request to response. The database queries are the sequences the
operations receive. Each holding or watched symbol comes paired with what
`get_stock_quote` returned for it.

Three behaviours of the code matter to callers:

- The change percentage is returned as text with its '%' signs stripped, not as
  a number.
- A quoted holding whose investment is zero (zero quantity or zero purchase
  price) raises a `ZeroDivisionError` at line 160. It is not caught, so the
  whole dashboard request fails. `Valuation.LineFor` returns
  `Err(ZeroInvestment(symbol))` for it, and `DashboardOverview` propagates the
  first such error. Holdings without a quote are skipped before the division,
  so they never fail.
- A single malformed history entry inside the 30-entry window makes the
  history `None`, not a shorter history. An empty daily series hides a
  monthly series in the same reply.

## Model

| member | source | states |
|---|---|---|
| Provider.Find | backend/app.py:41-42 | a key is found exactly when some member carries it, and the value found is that of its first occurrence |
| Provider.FindFirst | backend/app.py:41-42 | in the model's lookup, the first member carrying a key is the one returned, whatever later members carry the same key; Python keeps the last value of a repeated key instead (see "Left out") |
| Provider.Get | backend/app.py:75-78 | `data[key]` after `key in data` succeeds exactly for an object that has a member with that key |
| Provider.ToFloat | backend/app.py:45-46 | `float` of a number is that number; `float` of null, a list or an object raises |
| Provider.FloatFieldFixed | backend/app.py:45-46 | a field holding signed fixed-point text reads, through `float(obj[key])`, as the number the text denotes |
| Provider.Truncate | backend/app.py:48 | `int` of a number truncates toward zero, from below for non-negative numbers and from above for negative ones |
| Provider.ToInt | backend/app.py:48 | `int` of a number is its truncation; `int` of null, a list or an object raises |
| Numbers.ParseInt | backend/app.py:48 | text `int` reads is non-empty and ends in a digit, and a negative result comes only from text that starts with '-' (the round trip is `Numbers.ParseIntToString`) |
| Numbers.ParseReal | backend/app.py:45-46 | text `float` reads (here and for the close at line 85) is non-empty, and a negative result comes only from text that starts with '-' (the exact value read is `Numbers.ParseFixedSignedText`) |
| Numbers.ParseIntToString | backend/app.py:48 | `int` reads back the decimal text of every integer, negative ones included |
| Numbers.ParseFixedSignedText | backend/app.py:45-46 | `float` reads the provider's signed fixed-point text ("-1.2500") back to the exact value it denotes |
| Numbers.ParseRealSign | backend/app.py:45-46 | a leading '-' negates the value `float` reads, and an unsigned number reads unchanged |
| Text.StripTrailing | backend/app.py:47 | `rstrip('%')` yields a prefix of its input that does not end in '%', and everything removed is '%' |
| Text.StripTrailingSplits | backend/app.py:47 | the input is exactly the stripped text followed by its run of trailing '%' |
| Text.StripTrailingIdempotent | backend/app.py:47 | stripping a second time changes nothing |
| Text.StripTrailingRepeat | backend/app.py:47 | appending any number of '%' to text that does not end in '%' is undone exactly |
| Quotes.PercentField | backend/app.py:47 | the percentage field yields text exactly when it holds a string, and then the string with its trailing '%' signs removed |
| Quotes.DecodeQuote | backend/app.py:41-53 | a quote is returned exactly when "Global Quote" is present and price, change, percentage, volume and trading day all read; then every field is the one read, and the symbol is the caller's |
| Quotes.QuoteObjectPrices | backend/app.py:45-46 | the price and change of the provider's reply, written as fixed-point text, read back as the quote's price and change |
| Quotes.DecodeEncodeQuote | backend/app.py:41-50 | decoding the provider's all-text reply for a quote (price and change as fixed-point text, volume as decimal text) gives that quote back, whatever number of '%' signs follows the percentage |
| Quotes.SymbolFromCaller | backend/app.py:44 | the returned symbol is the one asked for, even when the provider's "01. symbol" differs |
| Quotes.NoGlobalQuote | backend/app.py:41-53 | a failed request, or a reply without "Global Quote", gives no quote |
| Quotes.EmptyGlobalQuote | backend/app.py:41-53 | the provider's empty "Global Quote" for an unknown symbol gives no quote |
| Quotes.UnreadablePriceDiscardsQuote | backend/app.py:45 | a price text `float` cannot read discards the whole quote, however good the other fields are |
| Dates.MonthToken | backend/app.py:84 | the `%m` token accepts exactly `1`-`9`, `01`-`09` and `10`-`12`, and reads a month from 1 to 12 |
| Dates.DayToken | backend/app.py:84 | the `%d` token accepts exactly `1`-`9`, `01`-`09`, blank-padded ` 1`-` 9`, `10`-`29`, `30` and `31`, and reads a day from 1 to 31 |
| Dates.ParseDate | backend/app.py:84 | `strptime` accepts only a date that exists in the calendar, written with four year digits and a '-' after them |
| Dates.FormatDate | backend/app.py:91 | `strftime` writes ten characters: four year digits, '-', two month digits, '-', two day digits |
| Dates.ParseFormatDate | backend/app.py:84-91 | `strptime` reads back exactly the date that `strftime` wrote |
| Dates.FormatDateCanonical | backend/app.py:91 | every date the service emits is in canonical zero-padded form |
| Dates.LenientKeyNormalised | backend/app.py:84-91 | a key with single-digit month and day is accepted and written back zero-padded |
| Dates.NonexistentDateRejected | backend/app.py:84 | a day that does not exist in its month is rejected although its digits fit the pattern |
| Series.FunctionFor | backend/app.py:56-64 | the monthly series is requested exactly for "1year", the daily one for every other period |
| Series.RequestForPeriod | backend/app.py:55-72 | the history requests the monthly series for "1year" and the daily series otherwise, under the provider's function names |
| Series.DecodePointDate | backend/app.py:84-91 | a decoded point's date names the same day as its provider key and is canonical |
| Series.Split | backend/app.py:81-85 | the dates and prices lists are as long as the points, and position `i` of each holds point `i` |
| Series.DecodeSelected | backend/app.py:80-93 | a decoded history has as many dates as prices, and as many as the first 30 entries of the selected series |
| Series.SelectedAllOrNothing | backend/app.py:80-97 | a selected series decodes exactly when it is a non-empty object whose first 30 entries all decode |
| Series.SeriesShape | backend/app.py:83-93 | returned position `i` holds the date and price of the same provider entry, the `i`-th from the end of the 30-entry window |
| Series.DecodeSeries | backend/app.py:70-97 | a failed request or a reply with neither series key gives `None`, and a history never holds more than 30 points |
| Series.HistoricalData | backend/app.py:55-97 | the history's two lists have equal length, at most 30 |
| Series.DailyTakesPrecedence | backend/app.py:74-76 | when the daily key is present its series is decoded, whatever the monthly key holds |
| Series.MonthlyWithoutDaily | backend/app.py:77-78 | when the daily key is absent, the monthly series is the one decoded |
| Series.EmptyDailyHidesMonthly | backend/app.py:74-80 | an empty daily series hides a monthly one present in the same reply, and the result is `None` |
| Series.BadEntryDiscardsSeries | backend/app.py:83-85 | one entry in the window whose key or close cannot be read discards the whole history |
| Series.OnlyWindowMatters | backend/app.py:83 | entries after the first 30 are never looked at, not even to reject them |
| Series.ReturnedDates | backend/app.py:83-91 | the returned dates, read backwards, name the same days as the window's provider keys |
| Series.ReversedKeysAscend | backend/app.py:87-88 | dates mirroring newest-first keys are oldest first |
| Series.NewestFirstBecomesOldestFirst | backend/app.py:83-93 | when the provider lists its entries newest first, the returned dates ascend strictly |
| Series.EncodedPoint | backend/app.py:84-85 | an entry keyed by a canonical date whose "4. close" holds signed fixed-point text decodes to that date and the value the text denotes |
| Series.DecodeEncodeSeries | backend/app.py:80-93 | the provider's series for a history of 1 to 30 canonical dates, listed newest first with each "4. close" written as fixed-point text, decodes back to that history |
| Series.CollectHistory | backend/app.py:80-93 | the loop that appends each entry's date and price, stopping at the first failure, then reverses both lists, computes the decoded history |
| Valuation.LineFor | backend/app.py:157-173 | a quoted holding's line fails exactly when its investment is zero; otherwise it carries the holding's symbol, quantity and purchase price and the quoted price, its investment is quantity times purchase price, its value quantity times price, its gain or loss the difference, and its percentage that gain over the investment times 100 |
| Valuation.Lines | backend/app.py:154-174 | when no quoted holding fails, there is one line per quoted holding (`Valuation.LinesPointwise` states which line) |
| Valuation.LinesPointwise | backend/app.py:154-174 | the lines exist exactly when no quoted holding has zero investment, and line `i` is the line of the `i`-th quoted holding |
| Valuation.FirstZeroInvestmentReported | backend/app.py:154-160 | the failure names the first quoted holding whose investment is zero |
| Valuation.LinesBalanced | backend/app.py:157-159 | every line's gain or loss is its current value less its investment |
| Valuation.Summarize | backend/app.py:176-185 | the overall gain or loss is the value less the investment, and the overall percentage is 0 unless the total investment is positive |
| Valuation.OverallIsSumOfGains | backend/app.py:159-176 | the overall gain or loss equals the sum of the lines' gains and losses |
| Valuation.TotalsOverQuoted | backend/app.py:162-163 | the totals sum the investment and worth of the quoted holdings and nothing else |
| Valuation.DashboardOverview | backend/app.py:150-187 | a successful overview has one line per quoted holding |
| Valuation.OverviewFailsIffZeroInvestment | backend/app.py:156-160 | the dashboard fails exactly when some holding with a quote has zero investment |
| Valuation.UnquotedHoldingSkipped | backend/app.py:155-156 | a holding without a quote has no effect, even when its investment is zero |
| Valuation.LinesStopAtError | backend/app.py:154-160 | once a quoted holding has failed, later holdings cannot change the outcome |
| Valuation.FailedPrefixFails | backend/app.py:154-160 | a zero-investment failure among the holdings visited so far is the failure of the whole dashboard, whatever holdings follow |
| Valuation.StepQuoted | backend/app.py:156-174 | one iteration over a quoted holding appends its line or fails the whole overview |
| Valuation.VisitHolding | backend/app.py:154-174 | one iteration keeps the collected lines and the running totals in agreement with the holdings visited |
| Valuation.CollectLines | backend/app.py:150-174 | the loop's lines are those of the quoted holdings and its running totals are their sums, or it stops with the overview's error |
| Valuation.ComputeOverview | backend/app.py:150-187 | the loop with running totals computes the overview |
| Valuation.OneQuotedHolding | backend/app.py:150-187 | a portfolio of one quoted holding is its line beside that line's summary, or that line's error |
| Valuation.SingleHoldingExample | backend/app.py:157-185 | 10 shares bought at 100 and quoted at 150 give investment 1000, value 1500, gain 500 and 50 percent |
| Valuation.ZeroPurchasePriceFails | backend/app.py:160 | a quoted holding bought at price 0 fails the whole dashboard |
| Sequences.Prefix | backend/app.py:83 | `items[:30]` is the first `min(len, 30)` elements of the list, in order |
| Sequences.Reverse | backend/app.py:87-88 | `reverse()` keeps the length and puts element `len-1-i` at position `i` |
| Sequences.ReverseReverse | backend/app.py:87-88 | reversing twice restores the list |
| Sequences.Present | backend/app.py:275-277 | the `if stock_data:` filter (also at lines 156 and 298) keeps no more pairs than it is given, and every pair kept was given with its value present |
| Sequences.PresentMembership | backend/app.py:275-277 | a pair is kept exactly when it was given with its value present |
| Sequences.PresentKeeps | backend/app.py:277-283 | a pair with its value present is kept, unwrapped, in its place among the others |
| Sequences.PresentSkips | backend/app.py:277 | a pair without a value contributes nothing |
| Sequences.Traverse | backend/app.py:83-85 | a loop whose body may raise, when it completes, yields one result per element |
| Sequences.TraverseAllOrNothing | backend/app.py:83-85 | the loop completes exactly when every element succeeds, and then result `i` is that of element `i` |
| Sequences.TraverseFails | backend/app.py:83-85 | one failing element makes the whole loop fail |
| Projections.Watchlist | backend/app.py:274-285 | entry `i` is the `i`-th watched symbol whose quote arrived, with that quote's price, change and percentage |
| Projections.WatchlistFromItems | backend/app.py:275-283 | every entry belongs to a watched symbol whose quote arrived |
| Projections.WatchlistSkips | backend/app.py:277 | a symbol without a quote leaves the watch list exactly as the other symbols make it |
| Projections.WatchlistPercentages | backend/app.py:282 | no percentage on the watch list ends in '%' when the quotes come from the decoder |
| Projections.RowFor | backend/app.py:299-307 | a row carries the holding's symbol, quantity and purchase price and the quoted price; its investment is quantity times purchase price, its value quantity times price, and its gain or loss the difference, with no division |
| Projections.Report | backend/app.py:295-307 | row `i` is the row of the `i`-th holding whose quote arrived |
| Projections.ReportAgreesWithDashboard | backend/app.py:150-174 | whenever the dashboard succeeds, report rows and dashboard lines match in symbol, investment, value and gain or loss |
| Projections.ReportKeepsZeroInvestment | backend/app.py:295-307 | a quoted holding bought at price 0 gets a report row where the dashboard fails |

Seven functions carry no contract of their own, because the lemmas about
them pin them down:

- `Series.SelectSeries` (backend/app.py:74-78) is pinned by
  `Series.DailyTakesPrecedence`, `Series.MonthlyWithoutDaily` and
  `Series.EmptyDailyHidesMonthly`.
- `Series.DecodePoint` (backend/app.py:84-85) is pinned by
  `Series.DecodePointDate`, `Series.EncodedPoint`, `Series.SelectedAllOrNothing`,
  `Series.SeriesShape` and `Series.BadEntryDiscardsSeries`.
- `Provider.Truthy` (backend/app.py:80) is pinned, for series objects, by
  `Series.SelectedAllOrNothing` (a series decodes only when it is a non-empty
  object) and `Series.EmptyDailyHidesMonthly` (an empty series is rejected).
- `Provider.FloatField` (`float(obj[key])`, backend/app.py:45-46) is pinned
  by `Provider.FloatFieldFixed` and `Quotes.DecodeQuote`.
- `Provider.IntField` (`int(obj[key])`, backend/app.py:48) is pinned by
  `Quotes.DecodeEncodeQuote`.
- `Quotes.GlobalQuote` (`data['Global Quote']`, backend/app.py:41-42) is
  pinned by `Quotes.NoGlobalQuote` and `Quotes.DecodeQuote`.
- `Valuation.Investment` (backend/app.py:157) is pinned by `Valuation.LineFor`.

## Left out

- Flask routing, JWT authentication, the SQLAlchemy models and the routes
  outside the core (registration, login, portfolio and watch-list edits, the
  stock detail route and the chart route) are not modelled. The core's inputs
  are the sequences those queries return.
- The HTTP client (`requests.get`, `.json()`) is not modelled. A reply is a
  `Response` value, and the history takes the provider as a function
  parameter. JSON text decoding is not modelled either.
- The API key and the constant `outputsize=compact` request parameter are
  left out of `SeriesRequest`, because they never vary.
- Prices and quantities are `real`, not IEEE doubles, so rounding in `*`, `-`
  and `/` is not modelled.
- Numbers.ParseReal: reads plain ASCII decimal text only. Python's `float`
  also accepts surrounding blanks, exponents, `inf`/`nan`, digit separators
  and non-ASCII decimal digits, which the provider does not send.
- Numbers.ParseInt: reads an optional sign and ASCII digits only. Surrounding
  blanks, digit separators and non-ASCII decimal digits, which `int` also
  accepts, are not modelled.
- Dates.ParseDate: reads ASCII digits only, where `strptime`'s `\d` also
  matches other Unicode decimal digits.
- Provider.FindFirst: states first-occurrence lookup, which is the model's
  rule, not Python's. For a repeated key `json()` keeps the last value, so a
  reply repeating "Global Quote", a series key or "4. close" would be read
  differently by the service. The provider does not repeat keys.
- Provider.Find: a JSON object with a repeated key keeps its first occurrence.
  Python's decoder keeps the last. The provider does not repeat keys.
- Series.DecodeSelected: reads every listed member of the series object. For
  a series that repeats a date key, Python's decoder keeps that key once, at
  its first position, with its last value, so the service decodes one point
  per distinct key where the model decodes one per listed member. The
  provider does not repeat date keys.
- Dates.FormatDate: requires a valid date, and writes the year zero-padded to
  four digits. For years below 1000, `strftime` output is platform-dependent.
- Projections.Report: the money columns are kept as numbers. The
  `$x.xx` text formatting, the pandas CSV and the file download are not
  modelled.
- The chart built with Plotly, the report's `datetime.now()` file name, and
  the `print` calls in the exception handlers are not modelled.
- Series.FunctionFor: the default `period='1month'` of `get_historical_data`
  is not modelled; both callers in `backend/app.py` pass a period, and an
  omitted period would select the daily series exactly as "1month" does.
- Series.HistoricalData: states the bound on the result and the request it
  sends (`Series.RequestForPeriod`); the decoding itself is stated by
  `Series.DecodeSeries` and the lemmas about `Series.DecodeSelected`.
