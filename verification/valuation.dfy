/** The valuation loop of `dashboard_overview`: each holding whose quote
    arrived becomes a line (investment, current value, gain or loss and its
    percentage), holdings without a quote are skipped, and the lines are
    totalled into a summary. The per-line percentage divides by the
    investment unguarded, so a quoted holding with zero investment aborts the
    whole request; only the overall percentage is guarded. */
module Valuation {
  import opened Wrappers
  import opened Sequences
  import opened Quotes

  /** A portfolio row: what was bought, how many, at what price. */
  datatype Holding = Holding(symbol: string, quantity: real, purchasePrice: real)

  /** One entry of `portfolio_data`. */
  datatype Line = Line(
    symbol: string,
    quantity: real,
    purchasePrice: real,
    currentPrice: real,
    investment: real,
    currentValue: real,
    gainLoss: real,
    gainLossPercent: real)

  /** `portfolio_summary`. */
  datatype Summary = Summary(
    totalInvestment: real,
    currentValue: real,
    overallGainLoss: real,
    overallGainLossPercent: real)

  datatype Overview = Overview(summary: Summary, holdings: seq<Line>)

  /** The `ZeroDivisionError` the per-line percentage of `dashboard_overview`
      raises for a quoted holding whose investment is zero; it escapes the
      handler and fails the request. */
  datatype OverviewError = ZeroInvestment(symbol: string)

  /** `quantity * purchase_price`. */
  function Investment(h: Holding): real {
    h.quantity * h.purchasePrice
  }

  /** The line for a holding quoted at `price` in the loop of `dashboard_overview`. */
  function LineFor(h: Holding, price: real): (r: Result<Line, OverviewError>)
    ensures r.Err? <==> h.quantity == 0.0 || h.purchasePrice == 0.0
    ensures r.Err? ==> r.error == ZeroInvestment(h.symbol)
    ensures r.Ok? ==>
      && r.value.symbol == h.symbol && r.value.currentPrice == price
      && r.value.quantity == h.quantity && r.value.purchasePrice == h.purchasePrice
      && r.value.investment == Investment(h)
      && r.value.currentValue == h.quantity * price
      && r.value.gainLoss == h.quantity * (price - h.purchasePrice)
      && r.value.gainLossPercent * r.value.investment == r.value.gainLoss * 100.0
  {
    var investment := h.quantity * h.purchasePrice;
    var current := h.quantity * price;
    var gainLoss := current - investment;
    if investment == 0.0 then Err(ZeroInvestment(h.symbol))
    else Ok(Line(h.symbol, h.quantity, h.purchasePrice, price, investment, current, gainLoss,
                 gainLoss / investment * 100.0))
  }

  /** A line whose gain or loss is its current value less its investment. */
  predicate Balanced(l: Line) {
    l.gainLoss == l.currentValue - l.investment
  }

  /** The lines of the quoted holdings, in holding order, or the error of the
      first one whose investment is zero. */
  function Lines(qs: seq<(Holding, Quote)>): (r: Result<seq<Line>, OverviewError>)
    ensures r.Ok? ==> |r.value| == |qs|
  {
    if |qs| == 0 then Ok([])
    else
      var init :- Lines(qs[..|qs| - 1]);
      var last :- LineFor(qs[|qs| - 1].0, qs[|qs| - 1].1.price);
      Ok(init + [last])
  }

  function TotalInvestment(lines: seq<Line>): real {
    if |lines| == 0 then 0.0 else TotalInvestment(lines[..|lines| - 1]) + lines[|lines| - 1].investment
  }

  function TotalValue(lines: seq<Line>): real {
    if |lines| == 0 then 0.0 else TotalValue(lines[..|lines| - 1]) + lines[|lines| - 1].currentValue
  }

  function TotalGainLoss(lines: seq<Line>): real {
    if |lines| == 0 then 0.0 else TotalGainLoss(lines[..|lines| - 1]) + lines[|lines| - 1].gainLoss
  }

  /** The summary of `dashboard_overview`: the overall percentage is 0 unless the total investment is positive. */
  function Summarize(lines: seq<Line>): (s: Summary)
    ensures s.totalInvestment == TotalInvestment(lines) && s.currentValue == TotalValue(lines)
    ensures s.overallGainLoss == s.currentValue - s.totalInvestment
    ensures s.totalInvestment <= 0.0 ==> s.overallGainLossPercent == 0.0
    ensures s.totalInvestment > 0.0 ==> s.overallGainLossPercent * s.totalInvestment == s.overallGainLoss * 100.0
  {
    var total := TotalInvestment(lines);
    var current := TotalValue(lines);
    var overall := current - total;
    Summary(total, current, overall, if total > 0.0 then overall / total * 100.0 else 0.0)
  }

  /** `dashboard_overview` for holdings paired with what `get_stock_quote` returned for each. */
  function DashboardOverview(ps: seq<(Holding, Option<Quote>)>): (r: Result<Overview, OverviewError>)
    ensures r.Ok? ==> |r.value.holdings| == |Present(ps)| <= |ps|
  {
    var lines :- Lines(Present(ps));
    Ok(Overview(Summarize(lines), lines))
  }

  // ---------------------------------------------------------------------------
  // Properties

  /** The lines exist exactly when every quoted holding has a non-zero
      investment, and then line `i` is the line of the `i`-th quoted holding. */
  lemma {:induction false} LinesPointwise(qs: seq<(Holding, Quote)>)
    ensures Lines(qs).Ok? <==> forall i :: 0 <= i < |qs| ==> Investment(qs[i].0) != 0.0
    ensures Lines(qs).Ok? ==> forall i :: 0 <= i < |qs| ==> LineFor(qs[i].0, qs[i].1.price) == Ok(Lines(qs).value[i])
  {
    if |qs| > 0 {
      var init := qs[..|qs| - 1];
      LinesPointwise(init);
      assert forall i :: 0 <= i < |init| ==> init[i] == qs[i];
      if Lines(qs).Ok? {
        var r := Lines(qs).value;
        var front := Lines(init).value;
        assert r == front + [LineFor(qs[|qs| - 1].0, qs[|qs| - 1].1.price).value];
        forall i | 0 <= i < |qs|
          ensures LineFor(qs[i].0, qs[i].1.price) == Ok(r[i])
        {
          if i < |init| {
            assert r[i] == front[i];
          }
        }
      }
    }
  }

  /** The error names the first quoted holding whose investment is zero. */
  lemma {:induction false} FirstZeroInvestmentReported(qs: seq<(Holding, Quote)>)
    requires Lines(qs).Err?
    ensures exists k ::
      && 0 <= k < |qs| && Investment(qs[k].0) == 0.0 && Lines(qs).error == ZeroInvestment(qs[k].0.symbol)
      && forall i :: 0 <= i < k ==> Investment(qs[i].0) != 0.0
  {
    var init := qs[..|qs| - 1];
    assert forall i :: 0 <= i < |init| ==> init[i] == qs[i];
    LinesPointwise(init);
    if Lines(init).Err? {
      FirstZeroInvestmentReported(init);
      var k :| 0 <= k < |init| && Investment(init[k].0) == 0.0 && Lines(init).error == ZeroInvestment(init[k].0.symbol)
        && forall i :: 0 <= i < k ==> Investment(init[i].0) != 0.0;
      assert qs[k] == init[k];
    } else {
      assert Investment(qs[|qs| - 1].0) == 0.0;
    }
  }

  /** Every line's gain or loss is its current value less its investment. */
  lemma LinesBalanced(qs: seq<(Holding, Quote)>)
    requires Lines(qs).Ok?
    ensures forall i :: 0 <= i < |qs| ==> Balanced(Lines(qs).value[i])
  {
    LinesPointwise(qs);
    forall i | 0 <= i < |qs|
      ensures Balanced(Lines(qs).value[i])
    {
      var h := qs[i].0;
      var p := qs[i].1.price;
      assert h.quantity * (p - h.purchasePrice) == h.quantity * p - h.quantity * h.purchasePrice;
    }
  }

  /** The overall gain or loss is the sum of the lines' gains and losses. */
  lemma {:induction false} OverallIsSumOfGains(lines: seq<Line>)
    requires forall i :: 0 <= i < |lines| ==> Balanced(lines[i])
    ensures Summarize(lines).overallGainLoss == TotalGainLoss(lines)
  {
    if |lines| > 0 {
      var init := lines[..|lines| - 1];
      assert forall i :: 0 <= i < |init| ==> init[i] == lines[i];
      OverallIsSumOfGains(init);
    }
  }

  /** What the quoted holdings cost: the reference sum of `quantity * purchase_price`. */
  function Invested(qs: seq<(Holding, Quote)>): real {
    if |qs| == 0 then 0.0 else Invested(qs[..|qs| - 1]) + Investment(qs[|qs| - 1].0)
  }

  /** What the quoted holdings are worth at their quoted prices. */
  function Worth(qs: seq<(Holding, Quote)>): real {
    if |qs| == 0 then 0.0 else Worth(qs[..|qs| - 1]) + qs[|qs| - 1].0.quantity * qs[|qs| - 1].1.price
  }

  /** The totals sum over the quoted holdings and nothing else. */
  lemma {:induction false} TotalsOverQuoted(qs: seq<(Holding, Quote)>)
    requires Lines(qs).Ok?
    ensures TotalInvestment(Lines(qs).value) == Invested(qs)
    ensures TotalValue(Lines(qs).value) == Worth(qs)
  {
    if |qs| > 0 {
      var init := qs[..|qs| - 1];
      TotalsOverQuoted(init);
      assert Lines(qs).value[..|qs| - 1] == Lines(init).value;
    }
  }

  /** The dashboard fails exactly when some holding that has a quote has zero investment. */
  lemma OverviewFailsIffZeroInvestment(ps: seq<(Holding, Option<Quote>)>)
    ensures DashboardOverview(ps).Err? <==>
      exists i :: 0 <= i < |ps| && ps[i].1.Some? && Investment(ps[i].0) == 0.0
  {
    var qs := Present(ps);
    LinesPointwise(qs);
    if DashboardOverview(ps).Err? {
      var k :| 0 <= k < |qs| && Investment(qs[k].0) == 0.0;
      PresentMembership(ps, qs[k].0, qs[k].1);
      assert qs[k] in qs;
      var i :| 0 <= i < |ps| && ps[i] == (qs[k].0, Some(qs[k].1));
      assert ps[i].1.Some? && Investment(ps[i].0) == 0.0;
    }
    if exists i :: 0 <= i < |ps| && ps[i].1.Some? && Investment(ps[i].0) == 0.0 {
      var i :| 0 <= i < |ps| && ps[i].1.Some? && Investment(ps[i].0) == 0.0;
      PresentMembership(ps, ps[i].0, ps[i].1.value);
      assert (ps[i].0, Some(ps[i].1.value)) == ps[i];
      var k :| 0 <= k < |qs| && qs[k] == (ps[i].0, ps[i].1.value);
      assert Investment(qs[k].0) == 0.0;
    }
  }

  /** A holding whose quote is `None` has no effect at all, not even when its investment is zero. */
  lemma UnquotedHoldingSkipped(a: seq<(Holding, Option<Quote>)>, h: Holding, b: seq<(Holding, Option<Quote>)>)
    ensures DashboardOverview(a + [(h, None)] + b) == DashboardOverview(a + b)
  {
    PresentSkips(a, h, b);
  }

  /** Once a quoted holding has failed, later holdings cannot change the outcome. */
  lemma {:induction false} LinesStopAtError(a: seq<(Holding, Quote)>, b: seq<(Holding, Quote)>)
    requires Lines(a).Err?
    ensures Lines(a + b) == Lines(a)
    decreases |b|
  {
    if |b| == 0 {
      assert a + b == a;
    } else {
      var b' := b[..|b| - 1];
      LinesStopAtError(a, b');
      assert (a + b)[..|a + b| - 1] == a + b';
    }
  }

  /** One iteration over a holding whose quote is missing leaves the lines as they were. */
  lemma StepUnquoted(ps: seq<(Holding, Option<Quote>)>, i: nat)
    requires i < |ps| && ps[i].1.None?
    ensures Present(ps[..i + 1]) == Present(ps[..i])
  {
    assert ps[..i + 1][..i] == ps[..i];
  }

  /** One iteration over a holding whose quote arrived appends that holding, quote unwrapped. */
  lemma StepPresent(ps: seq<(Holding, Option<Quote>)>, i: nat)
    requires i < |ps| && ps[i].1.Some?
    ensures Present(ps[..i + 1]) == Present(ps[..i]) + [(ps[i].0, ps[i].1.value)]
  {
    assert ps[..i + 1][..i] == ps[..i];
  }

  /** A failure among the holdings visited so far is the failure of the whole overview. */
  lemma FailedPrefixFails(ps: seq<(Holding, Option<Quote>)>, n: nat)
    requires n <= |ps| && Lines(Present(ps[..n])).Err?
    ensures DashboardOverview(ps) == Err(Lines(Present(ps[..n])).error)
  {
    var a, b := Present(ps[..n]), Present(ps[n..]);
    assert ps[..n] + ps[n..] == ps;
    PresentAppend(ps[..n], ps[n..]);
    assert Present(ps) == a + b;
    LinesStopAtError(a, b);
    assert Lines(Present(ps)) == Lines(a);
  }

  /** One iteration over a quoted holding: its line is appended, or the whole overview fails. */
  lemma StepQuoted(ps: seq<(Holding, Option<Quote>)>, i: nat, lines: seq<Line>)
    requires i < |ps| && ps[i].1.Some? && Lines(Present(ps[..i])) == Ok(lines)
    ensures var r := LineFor(ps[i].0, ps[i].1.value.price);
      && (r.Ok? ==> Lines(Present(ps[..i + 1])) == Ok(lines + [r.value]))
      && (r.Err? ==> DashboardOverview(ps) == Err(r.error))
  {
    StepPresent(ps, i);
    var done := Present(ps[..i + 1]);
    assert done[..|done| - 1] == Present(ps[..i]);
    var r := LineFor(ps[i].0, ps[i].1.value.price);
    if r.Err? {
      assert Lines(done) == Err(r.error);
      FailedPrefixFails(ps, i + 1);
    }
  }

  /** Once all lines are in, the overview is their summary beside them. */
  lemma OverviewOfLines(ps: seq<(Holding, Option<Quote>)>, lines: seq<Line>)
    requires Lines(Present(ps)) == Ok(lines)
    ensures DashboardOverview(ps) == Ok(Overview(Summarize(lines), lines))
  {
  }

  /** The running totals of the loop agree with the lines collected so far. */
  predicate Tallied(lines: seq<Line>, totalInvestment: real, currentValue: real) {
    totalInvestment == TotalInvestment(lines) && currentValue == TotalValue(lines)
  }

  /** One iteration of the loop in `dashboard_overview`, for the holding at position `i`. */
  method VisitHolding(ps: seq<(Holding, Option<Quote>)>, i: nat, lines: seq<Line>, totalInvestment: real, currentValue: real)
    returns (r: Result<(seq<Line>, real, real), OverviewError>)
    requires i < |ps| && Lines(Present(ps[..i])) == Ok(lines) && Tallied(lines, totalInvestment, currentValue)
    ensures r.Err? ==> DashboardOverview(ps) == Err(r.error)
    ensures r.Ok? ==> Lines(Present(ps[..i + 1])) == Ok(r.value.0) && Tallied(r.value.0, r.value.1, r.value.2)
  {
    match ps[i].1 {
      case None =>
        StepUnquoted(ps, i);
        return Ok((lines, totalInvestment, currentValue));
      case Some(quote) =>
        StepQuoted(ps, i, lines);
        var result := LineFor(ps[i].0, quote.price);
        if result.Err? {
          return Err(result.error);
        }
        var line := result.value;
        assert (lines + [line])[..|lines|] == lines;
        return Ok((lines + [line], totalInvestment + line.investment, currentValue + line.currentValue));
    }
  }

  /** The loop of `dashboard_overview` as the service runs it: one pass over
      the holdings that appends the lines and keeps the running totals beside them. */
  method CollectLines(ps: seq<(Holding, Option<Quote>)>) returns (r: Result<(seq<Line>, real, real), OverviewError>)
    ensures r.Err? ==> DashboardOverview(ps) == Err(r.error)
    ensures r.Ok? ==> Lines(Present(ps)) == Ok(r.value.0) && Tallied(r.value.0, r.value.1, r.value.2)
  {
    var totalInvestment := 0.0;
    var currentValue := 0.0;
    var lines: seq<Line> := [];
    var i := 0;
    while i < |ps|
      invariant 0 <= i <= |ps|
      invariant Lines(Present(ps[..i])) == Ok(lines)
      invariant Tallied(lines, totalInvestment, currentValue)
    {
      var step := VisitHolding(ps, i, lines, totalInvestment, currentValue);
      if step.Err? {
        return Err(step.error);
      }
      lines, totalInvestment, currentValue := step.value.0, step.value.1, step.value.2;
      i := i + 1;
    }
    assert ps[..i] == ps;
    return Ok((lines, totalInvestment, currentValue));
  }

  /** `dashboard_overview`: the lines and their running totals, then the summary built from the totals. */
  method ComputeOverview(ps: seq<(Holding, Option<Quote>)>) returns (r: Result<Overview, OverviewError>)
    ensures r == DashboardOverview(ps)
  {
    var collected := CollectLines(ps);
    if collected.Err? {
      return Err(collected.error);
    }
    var (lines, totalInvestment, currentValue) := collected.value;
    OverviewOfLines(ps, lines);
    var overallGainLoss := currentValue - totalInvestment;
    var overallPercent := if totalInvestment > 0.0 then overallGainLoss / totalInvestment * 100.0 else 0.0;
    return Ok(Overview(Summary(totalInvestment, currentValue, overallGainLoss, overallPercent), lines));
  }

  /** A portfolio of one quoted holding: its line and a summary of that line, or its error. */
  lemma OneQuotedHolding(h: Holding, q: Quote)
    ensures var l := LineFor(h, q.price);
      && (l.Ok? ==> DashboardOverview([(h, Some(q))]) == Ok(Overview(Summarize([l.value]), [l.value])))
      && (l.Err? ==> DashboardOverview([(h, Some(q))]) == Err(l.error))
  {
    var ps := [(h, Some(q))];
    var qs := [(h, q)];
    assert Present(ps) == qs by {
      assert ps[..0] == [];
    }
    assert Lines(qs[..0]) == Ok([]) by {
      assert qs[..0] == [];
    }
    var l := LineFor(h, q.price);
    if l.Ok? {
      assert Lines(qs) == Ok([l.value]) by {
        assert [] + [l.value] == [l.value];
      }
    } else {
      assert Lines(qs) == Err(l.error);
    }
  }

  /** A holding of 10 shares bought at 100 and quoted at 150. */
  lemma SingleHoldingExample(q: Quote)
    requires q.price == 150.0
    ensures var h := Holding("AAPL", 10.0, 100.0);
      DashboardOverview([(h, Some(q))]) == Ok(Overview(
        Summary(1000.0, 1500.0, 500.0, 50.0),
        [Line("AAPL", 10.0, 100.0, 150.0, 1000.0, 1500.0, 500.0, 50.0)]))
  {
    var h := Holding("AAPL", 10.0, 100.0);
    var line := Line("AAPL", 10.0, 100.0, 150.0, 1000.0, 1500.0, 500.0, 50.0);
    OneQuotedHolding(h, q);
    assert 10.0 * 100.0 == 1000.0 && 10.0 * 150.0 == 1500.0;
    assert 500.0 / 1000.0 * 100.0 == 50.0;
    assert LineFor(h, q.price) == Ok(line);
    assert [line][..0] == [];
    assert TotalInvestment([line]) == 1000.0 && TotalValue([line]) == 1500.0;
    assert Summarize([line]) == Summary(1000.0, 1500.0, 500.0, 50.0);
  }

  /** A quoted holding bought at price 0 fails the whole dashboard rather than showing a 0% line. */
  lemma ZeroPurchasePriceFails(q: Quote)
    ensures DashboardOverview([(Holding("GIFT", 5.0, 0.0), Some(q))]) == Err(ZeroInvestment("GIFT"))
  {
    OneQuotedHolding(Holding("GIFT", 5.0, 0.0), q);
  }
}
