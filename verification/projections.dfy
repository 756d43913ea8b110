/** The watchlist (`get_watchlist`) and the portfolio report rows
    (`generate_portfolio_report`): both walk their items in order, ask for a
    quote, and append one entry only when the quote arrived. */
module Projections {
  import opened Wrappers
  import opened Sequences
  import opened Text
  import opened Quotes
  import opened Valuation

  /** One watchlist entry: the item's own symbol and three fields of its quote. */
  datatype WatchEntry = WatchEntry(symbol: string, price: real, change: real, changePercent: string)

  /** One report row, before the money columns are formatted as `$x.xx` text. */
  datatype ReportRow = ReportRow(
    symbol: string,
    quantity: real,
    purchasePrice: real,
    currentPrice: real,
    investment: real,
    currentValue: real,
    gainLoss: real)

  /** `get_watchlist`: watched symbols paired with what `get_stock_quote` returned. */
  function Watchlist(items: seq<(string, Option<Quote>)>): (r: seq<WatchEntry>)
    ensures |r| == |Present(items)| <= |items|
    ensures forall i :: 0 <= i < |r| ==>
      var (symbol, q) := Present(items)[i];
      r[i] == WatchEntry(symbol, q.price, q.change, q.changePercent)
  {
    if |items| == 0 then []
    else
      var init := Watchlist(items[..|items| - 1]);
      var (symbol, quote) := items[|items| - 1];
      match quote
      case None => init
      case Some(q) => init + [WatchEntry(symbol, q.price, q.change, q.changePercent)]
  }

  /** The row of a holding quoted at `price`, before formatting. */
  function RowFor(h: Holding, price: real): (row: ReportRow)
    ensures row.symbol == h.symbol && row.currentPrice == price
    ensures row.quantity == h.quantity && row.purchasePrice == h.purchasePrice
    ensures row.investment == Investment(h) && row.currentValue == h.quantity * price
    ensures row.gainLoss == row.currentValue - row.investment
  {
    ReportRow(h.symbol, h.quantity, h.purchasePrice, price,
              h.quantity * h.purchasePrice, h.quantity * price,
              h.quantity * (price - h.purchasePrice))
  }

  /** The rows of `generate_portfolio_report`: holdings paired with what `get_stock_quote` returned. */
  function Report(ps: seq<(Holding, Option<Quote>)>): (r: seq<ReportRow>)
    ensures |r| == |Present(ps)| <= |ps|
    ensures forall i :: 0 <= i < |r| ==> r[i] == RowFor(Present(ps)[i].0, Present(ps)[i].1.price)
  {
    if |ps| == 0 then []
    else
      var init := Report(ps[..|ps| - 1]);
      var (h, quote) := ps[|ps| - 1];
      match quote
      case None => init
      case Some(q) => init + [RowFor(h, q.price)]
  }

  // ---------------------------------------------------------------------------
  // Properties

  /** Every watchlist entry belongs to a watched symbol whose quote arrived. */
  lemma WatchlistFromItems(items: seq<(string, Option<Quote>)>)
    ensures forall i :: 0 <= i < |Watchlist(items)| ==>
      exists j :: 0 <= j < |items| && items[j].0 == Watchlist(items)[i].symbol && items[j].1.Some?
  {
    var r := Watchlist(items);
    forall i | 0 <= i < |r|
      ensures exists j :: 0 <= j < |items| && items[j].0 == r[i].symbol && items[j].1.Some?
    {
      var p := Present(items)[i];
      PresentMembership(items, p.0, p.1);
      assert p in Present(items);
      var j :| 0 <= j < |items| && items[j] == (p.0, Some(p.1));
    }
  }

  /** A symbol whose quote is missing leaves the watchlist exactly as the other symbols make it. */
  lemma WatchlistSkips(a: seq<(string, Option<Quote>)>, s: string, b: seq<(string, Option<Quote>)>)
    ensures Watchlist(a + [(s, None)] + b) == Watchlist(a + b)
  {
    PresentSkips(a, s, b);
    var r1 := Watchlist(a + [(s, None)] + b);
    var r2 := Watchlist(a + b);
    assert |r1| == |r2|;
    assert forall i :: 0 <= i < |r1| ==> r1[i] == r2[i];
  }

  /** The percentages shown on the watchlist never end in '%' when the quotes came from the decoder. */
  lemma WatchlistPercentages(items: seq<(string, Option<Quote>)>)
    requires forall i :: 0 <= i < |items| && items[i].1.Some? ==> !EndsWith(items[i].1.value.changePercent, '%')
    ensures forall i :: 0 <= i < |Watchlist(items)| ==> !EndsWith(Watchlist(items)[i].changePercent, '%')
  {
    var r := Watchlist(items);
    forall i | 0 <= i < |r|
      ensures !EndsWith(r[i].changePercent, '%')
    {
      var p := Present(items)[i];
      PresentMembership(items, p.0, p.1);
      assert p in Present(items);
      var j :| 0 <= j < |items| && items[j] == (p.0, Some(p.1));
    }
  }

  /** Whenever the dashboard succeeds, its lines and the report rows describe the
      same holdings in the same order with the same investment, value and gain or loss. */
  lemma ReportAgreesWithDashboard(ps: seq<(Holding, Option<Quote>)>)
    requires DashboardOverview(ps).Ok?
    ensures var rows := Report(ps); var lines := DashboardOverview(ps).value.holdings;
      && |rows| == |lines|
      && forall i :: 0 <= i < |rows| ==>
        && rows[i].symbol == lines[i].symbol
        && rows[i].investment == lines[i].investment
        && rows[i].currentValue == lines[i].currentValue
        && rows[i].gainLoss == lines[i].gainLoss
  {
    LinesPointwise(Present(ps));
  }

  /** The report has no zero-division hazard: a quoted holding bought at price 0
      gets its row, where the dashboard fails. */
  lemma ReportKeepsZeroInvestment(q: Quote)
    ensures var ps := [(Holding("GIFT", 5.0, 0.0), Some(q))];
      |Report(ps)| == 1 && Report(ps)[0].gainLoss == 5.0 * q.price && DashboardOverview(ps).Err?
  {
    ZeroPurchasePriceFails(q);
    var ps := [(Holding("GIFT", 5.0, 0.0), Some(q))];
    assert ps[..0] == [];
  }
}
