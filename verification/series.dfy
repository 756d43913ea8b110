/** `FinancialDataService.get_historical_data`: the period chooses the
    provider's daily or monthly series; the first 30 entries of the chosen
    series, in the provider's order, are decoded into (date, closing price)
    points, and both lists are returned reversed. One bad entry discards the
    whole series. */
module Series {
  import opened Wrappers
  import opened Sequences
  import opened Provider
  import opened Dates
  import opened Numbers

  /** The provider functions a period can select. */
  datatype SeriesFunction = TimeSeriesDaily | TimeSeriesMonthly {
    /** The value sent as the request's `function` parameter. */
    function Name(): string {
      match this
      case TimeSeriesDaily => "TIME_SERIES_DAILY"
      case TimeSeriesMonthly => "TIME_SERIES_MONTHLY"
    }
  }

  /** The request the service sends for a history (the API key and the
      constant `outputsize=compact` are not modelled). */
  datatype SeriesRequest = SeriesRequest(symbol: string, kind: SeriesFunction)

  /** The result `get_historical_data` returns: two parallel lists. */
  datatype History = History(dates: seq<string>, prices: seq<real>)

  const DailyKey := "Time Series (Daily)"
  const MonthlyKey := "Monthly Time Series"
  const CloseKey := "4. close"

  /** Only the first this many entries of a series are read. */
  const MaxPoints: nat := 30

  /** The `periods` table. */
  const Periods: map<string, SeriesFunction> := map[
    "1week" := TimeSeriesDaily,
    "1month" := TimeSeriesDaily,
    "3months" := TimeSeriesDaily,
    "1year" := TimeSeriesMonthly]

  /** `periods.get(period, 'TIME_SERIES_DAILY')`. */
  function FunctionFor(period: string): (f: SeriesFunction)
    ensures f == TimeSeriesMonthly <==> period == "1year"
  {
    if period in Periods then Periods[period] else TimeSeriesDaily
  }

  /** The series the reply carries: the daily one whenever its key is present,
      otherwise the monthly one. */
  function SelectSeries(data: Json): Option<Json> {
    match Get(data, DailyKey)
    case Some(ts) => Some(ts)
    case None => Get(data, MonthlyKey)
  }

  /** One loop iteration: `strptime` of the key and `float(values['4. close'])`.
      The date is formatted here rather than after the reversal; formatting
      each element commutes with reversing the list. */
  function DecodePoint(entry: (string, Json)): Option<(string, real)> {
    var date :- ParseDate(entry.0);
    var close :- FloatField(entry.1, CloseKey);
    Some((FormatDate(date), close))
  }

  /** The date a point carries is the canonical spelling of the day its provider key names. */
  lemma DecodePointDate(entry: (string, Json), p: (string, real))
    requires DecodePoint(entry) == Some(p)
    ensures ParseDate(entry.0).Some? && ParseDate(p.0) == ParseDate(entry.0)
    ensures Canonical(p.0)
  {
    ParseFormatDate(ParseDate(entry.0).value);
  }

  /** The parallel `dates` and `prices` lists of a sequence of points. */
  function Split(points: seq<(string, real)>): (h: History)
    ensures |h.dates| == |points| && |h.prices| == |points|
    ensures forall i :: 0 <= i < |points| ==> points[i] == (h.dates[i], h.prices[i])
  {
    History(seq(|points|, i requires 0 <= i < |points| => points[i].0),
            seq(|points|, i requires 0 <= i < |points| => points[i].1))
  }

  /** Reversing both parallel lists reverses the points they hold. */
  lemma SplitReversed(points: seq<(string, real)>)
    ensures var h := Split(points); var n := |points|;
      && |Reverse(h.dates)| == n && |Reverse(h.prices)| == n
      && forall i :: 0 <= i < n ==> points[n - 1 - i] == (Reverse(h.dates)[i], Reverse(h.prices)[i])
  {
  }

  /** The decoding in `get_historical_data` once a series has been selected:
      it must be truthy and an object; its first `MaxPoints` entries are
      decoded, all or nothing, and both lists reversed. */
  function DecodeSelected(ts: Json): (r: Option<History>)
    ensures r.Some? ==> ts.JObject? && |r.value.dates| == |r.value.prices| == Min(|ts.members|, MaxPoints)
  {
    if !Truthy(ts) || !ts.JObject? then None
    else
      var points :- Traverse(DecodePoint, Prefix(ts.members, MaxPoints));
      var h := Split(points);
      Some(History(Reverse(h.dates), Reverse(h.prices)))
  }

  /** A selected series decodes exactly when it is a non-empty object whose
      first `MaxPoints` entries all decode: there is no partial result. */
  lemma SelectedAllOrNothing(ts: Json)
    ensures DecodeSelected(ts).Some? <==>
      && ts.JObject? && |ts.members| > 0
      && forall i :: 0 <= i < Min(|ts.members|, MaxPoints) ==> DecodePoint(ts.members[i]).Some?
  {
    if ts.JObject? {
      var window := Prefix(ts.members, MaxPoints);
      TraverseAllOrNothing(DecodePoint, window);
      if DecodeSelected(ts).Some? {
        forall i | 0 <= i < |window|
          ensures DecodePoint(ts.members[i]).Some?
        {
          assert window[i] == ts.members[i];
        }
      } else if |ts.members| > 0 {
        var k :| 0 <= k < |window| && DecodePoint(window[k]).None?;
        assert window[k] == ts.members[k];
      }
    }
  }

  /** The returned lists are the reverse of the first `MaxPoints` entries:
      position `i` holds the date and the price of the same provider entry,
      the `i`-th from the end of the window. */
  lemma SeriesShape(ts: Json, h: History)
    requires DecodeSelected(ts) == Some(h)
    ensures forall i :: 0 <= i < |h.dates| ==>
      DecodePoint(ts.members[|h.dates| - 1 - i]) == Some((h.dates[i], h.prices[i]))
  {
    var points := SelectedParts(ts, h);
    WindowShape(DecodePoint, ts.members, Min(|ts.members|, MaxPoints), points, h);
  }

  /** What a successful `DecodeSelected` is made of: the decoded window and its reversed split. */
  lemma SelectedParts(ts: Json, h: History) returns (points: seq<(string, real)>)
    requires DecodeSelected(ts) == Some(h)
    ensures ts.JObject? && Min(|ts.members|, MaxPoints) <= |ts.members|
    ensures Traverse(DecodePoint, ts.members[..Min(|ts.members|, MaxPoints)]) == Some(points)
    ensures h == History(Reverse(Split(points).dates), Reverse(Split(points).prices))
  {
    assert Prefix(ts.members, MaxPoints) == ts.members[..Min(|ts.members|, MaxPoints)];
    points := Traverse(DecodePoint, Prefix(ts.members, MaxPoints)).value;
  }

  /** For any point decoder: the reversed split of a decoded prefix, read against the prefix. */
  lemma WindowShape<E>(f: E -> Option<(string, real)>, members: seq<E>, n: nat, points: seq<(string, real)>, h: History)
    requires n <= |members| && Traverse(f, members[..n]) == Some(points)
    requires h == History(Reverse(Split(points).dates), Reverse(Split(points).prices))
    ensures |h.dates| == |h.prices| == n
    ensures forall i :: 0 <= i < |h.dates| ==> f(members[|h.dates| - 1 - i]) == Some((h.dates[i], h.prices[i]))
  {
    TraversePrefix(f, members, n, points);
    SplitReversed(points);
  }

  /** `get_historical_data` once the reply is in hand. */
  function DecodeSeries(resp: Response): (r: Option<History>)
    ensures resp.Unavailable? ==> r.None?
    ensures resp.Received? && Get(resp.body, DailyKey).None? && Get(resp.body, MonthlyKey).None? ==> r.None?
    ensures r.Some? ==> |r.value.dates| == |r.value.prices| <= MaxPoints
  {
    match resp
    case Unavailable => None
    case Received(data) =>
      var ts :- SelectSeries(data);
      DecodeSelected(ts)
  }

  /** `get_historical_data(symbol, period)`, with the provider as a parameter. */
  function HistoricalData(symbol: string, period: string, fetch: SeriesRequest -> Response): (r: Option<History>)
    ensures r.Some? ==> |r.value.dates| == |r.value.prices| <= MaxPoints
  {
    DecodeSeries(fetch(SeriesRequest(symbol, FunctionFor(period))))
  }

  // ---------------------------------------------------------------------------
  // Properties

  /** The history asks the provider for the monthly series exactly for "1year"
      and for the daily series for every other period, listed or not. */
  lemma RequestForPeriod(symbol: string, period: string, fetch: SeriesRequest -> Response)
    ensures HistoricalData(symbol, period, fetch) ==
      DecodeSeries(fetch(SeriesRequest(symbol, if period == "1year" then TimeSeriesMonthly else TimeSeriesDaily)))
    ensures FunctionFor(period).Name() == (if period == "1year" then "TIME_SERIES_MONTHLY" else "TIME_SERIES_DAILY")
  {
  }

  /** The two series keys differ (in their first character). */
  lemma SeriesKeysDistinct()
    ensures DailyKey != MonthlyKey
  {
    assert DailyKey[0] == 'T' && MonthlyKey[0] == 'M';
  }

  /** When the daily key is present its series is the one decoded, whatever the monthly key holds. */
  lemma DailyTakesPrecedence(data: Json, daily: Json)
    requires Get(data, DailyKey) == Some(daily)
    ensures DecodeSeries(Received(data)) == DecodeSelected(daily)
  {
  }

  /** The monthly series is read only when the daily key is absent. */
  lemma MonthlyWithoutDaily(data: Json, monthly: Json)
    requires Get(data, DailyKey).None? && Get(data, MonthlyKey) == Some(monthly)
    ensures DecodeSeries(Received(data)) == DecodeSelected(monthly)
  {
  }

  /** An empty daily series hides a monthly one listed before it: the result is `None`. */
  lemma EmptyDailyHidesMonthly(monthly: Json)
    ensures DecodeSeries(Received(JObject([(MonthlyKey, monthly), (DailyKey, JObject([]))]))) == None
  {
    var ms := [(MonthlyKey, monthly), (DailyKey, JObject([]))];
    SeriesKeysDistinct();
    assert ms[0..] == ms;
    FindSkip(ms, DailyKey, 0);
    FindHere(ms, DailyKey, 1);
  }

  /** One entry inside the window that fails to decode discards the whole series. */
  lemma BadEntryDiscardsSeries(ts: Json, i: nat)
    requires ts.JObject? && i < Min(|ts.members|, MaxPoints)
    requires ParseDate(ts.members[i].0).None? || FloatField(ts.members[i].1, CloseKey).None?
    ensures DecodeSelected(ts) == None
  {
    SelectedAllOrNothing(ts);
    assert DecodePoint(ts.members[i]).None?;
  }

  /** Entries after the first `MaxPoints` are never looked at, not even to reject them. */
  lemma OnlyWindowMatters(ms: seq<(string, Json)>, extra: seq<(string, Json)>)
    requires |ms| >= MaxPoints
    ensures DecodeSelected(JObject(ms + extra)) == DecodeSelected(JObject(ms))
  {
    assert Truthy(JObject(ms + extra)) && Truthy(JObject(ms));
    assert Prefix(ms + extra, MaxPoints) == ms[..MaxPoints] == Prefix(ms, MaxPoints);
  }

  /** `dates` re-parse, in reverse order, to the first `|dates|` provider keys. */
  predicate MirrorsKeys(ms: seq<(string, Json)>, dates: seq<string>) {
    |dates| <= |ms| && forall i :: 0 <= i < |dates| ==> SameDay(dates[i], ms[|dates| - 1 - i].0)
  }

  /** `date` and the provider key `key` both parse, to the same day. */
  predicate SameDay(date: string, key: string) {
    ParseDate(key).Some? && ParseDate(date) == ParseDate(key)
  }

  /** Both texts parse, and `x` is an earlier day than `y`. */
  predicate EarlierDay(x: string, y: string) {
    ParseDate(x).Some? && ParseDate(y).Some? && Before(ParseDate(x).value, ParseDate(y).value)
  }

  /** The provider's order: among keys that parse, a later entry is an earlier day. */
  predicate NewestFirst(ms: seq<(string, Json)>) {
    forall a, b :: 0 <= a < b < |ms| && ParseDate(ms[a].0).Some? && ParseDate(ms[b].0).Some? ==>
      EarlierDay(ms[b].0, ms[a].0)
  }

  /** Every date parses and each is an earlier day than the next. */
  predicate OldestFirst(dates: seq<string>) {
    forall i, j :: 0 <= i < j < |dates| ==> EarlierDay(dates[i], dates[j])
  }

  /** Texts naming the same days as two keys are ordered as the keys are. */
  lemma SameDaysKeepOrder(x: string, kx: string, y: string, ky: string)
    requires SameDay(x, kx) && SameDay(y, ky) && EarlierDay(kx, ky)
    ensures EarlierDay(x, y)
  {
  }

  /** Dates decoded from the first `|dates|` entries, read backwards, mirror those entries' keys. */
  lemma DatesMirrorKeys(ms: seq<(string, Json)>, dates: seq<string>, prices: seq<real>)
    requires |dates| == |prices| <= |ms|
    requires forall i :: 0 <= i < |dates| ==> DecodePoint(ms[|dates| - 1 - i]) == Some((dates[i], prices[i]))
    ensures MirrorsKeys(ms, dates)
  {
    forall i | 0 <= i < |dates|
      ensures SameDay(dates[i], ms[|dates| - 1 - i].0)
    {
      DecodePointDate(ms[|dates| - 1 - i], (dates[i], prices[i]));
    }
  }

  /** Each returned date denotes the same day as the window entry it came from,
      read from the end of the window. */
  lemma ReturnedDates(ts: Json, h: History)
    requires DecodeSelected(ts) == Some(h)
    ensures MirrorsKeys(ts.members, h.dates)
  {
    SeriesShape(ts, h);
    DatesMirrorKeys(ts.members, h.dates, h.prices);
  }

  /** Dates that mirror provider keys listed newest first are oldest first. */
  lemma ReversedKeysAscend(ms: seq<(string, Json)>, dates: seq<string>)
    requires MirrorsKeys(ms, dates) && NewestFirst(ms)
    ensures OldestFirst(dates)
  {
    forall i, j | 0 <= i < j < |dates|
      ensures EarlierDay(dates[i], dates[j])
    {
      var a, b := |dates| - 1 - j, |dates| - 1 - i;
      assert 0 <= a < b < |ms|;
      assert SameDay(dates[i], ms[b].0) && SameDay(dates[j], ms[a].0);
      SameDaysKeepOrder(dates[i], ms[b].0, dates[j], ms[a].0);
    }
  }

  /** The provider lists the newest entry first; after the reversal the service
      returns dates oldest first. */
  lemma NewestFirstBecomesOldestFirst(ts: Json, h: History)
    requires DecodeSelected(ts) == Some(h) && NewestFirst(ts.members)
    ensures OldestFirst(h.dates)
  {
    ReturnedDates(ts, h);
    ReversedKeysAscend(ts.members, h.dates);
  }

  /** Appending a point appends its date and its price to the parallel lists. */
  lemma SplitAppend(points: seq<(string, real)>, p: (string, real))
    ensures Split(points + [p]) == History(Split(points).dates + [p.0], Split(points).prices + [p.1])
  {
  }

  // ---------------------------------------------------------------------------
  // A reference encoder: the series the provider would send for a history

  /** A provider record holding only a closing price, written as the
      provider's fixed-point text. */
  function CloseRecord(close: Fixed): Json
    requires WellFormedFixed(close)
  {
    JObject([(CloseKey, JString(FixedSignedText(close)))])
  }

  /** `closes` are well-formed provider texts for the prices of `h`, one per price. */
  predicate WrittenCloses(h: History, closes: seq<Fixed>) {
    && |closes| == |h.prices|
    && forall i :: 0 <= i < |closes| ==> WellFormedFixed(closes[i]) && h.prices[i] == FixedSignedValue(closes[i])
  }

  /** The entries of `h` oldest first, as the service returns them, each close
      written as its text in `closes`. */
  function Entries(h: History, closes: seq<Fixed>): (es: seq<(string, Json)>)
    requires |h.dates| == |h.prices| && WrittenCloses(h, closes)
    ensures |es| == |h.dates|
  {
    seq(|h.dates|, i requires 0 <= i < |h.dates| => (h.dates[i], CloseRecord(closes[i])))
  }

  /** The provider's series for `h`: the same entries, newest first. */
  function SeriesObject(h: History, closes: seq<Fixed>): Json
    requires |h.dates| == |h.prices| && WrittenCloses(h, closes)
  {
    JObject(Reverse(Entries(h, closes)))
  }

  /** An entry keyed by a canonical date decodes to that date and the price its close text denotes. */
  lemma EncodedPoint(date: string, close: Fixed)
    requires Canonical(date) && WellFormedFixed(close)
    ensures DecodePoint((date, CloseRecord(close))) == Some((date, FixedSignedValue(close)))
  {
    assert Get(CloseRecord(close), CloseKey) == Some(JString(FixedSignedText(close)));
    FloatFieldFixed(CloseRecord(close), CloseKey, close);
  }

  /** Every entry of `h` decodes to its own date and price. */
  lemma EncodedEntries(h: History, closes: seq<Fixed>)
    requires |h.dates| == |h.prices| && WrittenCloses(h, closes)
    requires forall i :: 0 <= i < |h.dates| ==> Canonical(h.dates[i])
    ensures forall i :: 0 <= i < |h.dates| ==> DecodePoint(Entries(h, closes)[i]) == Some((h.dates[i], h.prices[i]))
  {
    forall i | 0 <= i < |h.dates|
      ensures DecodePoint(Entries(h, closes)[i]) == Some((h.dates[i], h.prices[i]))
    {
      assert Entries(h, closes)[i] == (h.dates[i], CloseRecord(closes[i]));
      EncodedPoint(h.dates[i], closes[i]);
    }
  }

  /** The points of `h`, oldest first. */
  function Zip(h: History): (ps: seq<(string, real)>)
    requires |h.dates| == |h.prices|
    ensures |ps| == |h.dates|
    ensures forall i :: 0 <= i < |ps| ==> ps[i] == (h.dates[i], h.prices[i])
  {
    seq(|h.dates|, i requires 0 <= i < |h.dates| => (h.dates[i], h.prices[i]))
  }

  /** Taking the points of `h` newest first and reversing their split gives `h` back. */
  lemma SplitZipReversed(h: History)
    requires |h.dates| == |h.prices|
    ensures var split := Split(Reverse(Zip(h)));
      History(Reverse(split.dates), Reverse(split.prices)) == h
  {
    var split := Split(Reverse(Zip(h)));
    assert split.dates == Reverse(h.dates);
    assert split.prices == Reverse(h.prices);
    ReverseReverse(h.dates);
    ReverseReverse(h.prices);
  }

  /** For any point decoder: when the entries decode one by one to the points of
      `h`, the entries newest first decode as a whole to points whose reversed
      split is `h`. */
  lemma ReversedPoints<E>(f: E -> Option<(string, real)>, entries: seq<E>, h: History) returns (points: seq<(string, real)>)
    requires |h.dates| == |h.prices| == |entries|
    requires forall i :: 0 <= i < |entries| ==> f(entries[i]) == Some((h.dates[i], h.prices[i]))
    ensures Traverse(f, Reverse(entries)) == Some(points)
    ensures History(Reverse(Split(points).dates), Reverse(Split(points).prices)) == h
  {
    var zip := Zip(h);
    assert forall i :: 0 <= i < |entries| ==> f(entries[i]) == Some(zip[i]);
    TraverseReversed(f, entries, zip);
    SplitZipReversed(h);
    points := Reverse(zip);
  }

  /** A series of at most `MaxPoints` entries is decoded whole. */
  lemma SelectedWhole(members: seq<(string, Json)>, points: seq<(string, real)>, h: History)
    requires 0 < |members| <= MaxPoints
    requires Traverse(DecodePoint, members) == Some(points)
    requires History(Reverse(Split(points).dates), Reverse(Split(points).prices)) == h
    ensures DecodeSelected(JObject(members)) == Some(h)
  {
    var ts := JObject(members);
    assert Truthy(ts);
    assert Prefix(ts.members, MaxPoints) == members;
    assert Traverse(DecodePoint, Prefix(ts.members, MaxPoints)) == Some(points);
  }

  /** Decoding the provider's series for a history of at most `MaxPoints`
      canonical dates, its closes written as fixed-point text, gives the
      history back: the reversal undoes the provider's newest-first order. */
  lemma DecodeEncodeSeries(h: History, closes: seq<Fixed>)
    requires |h.dates| == |h.prices| && 0 < |h.dates| <= MaxPoints
    requires forall i :: 0 <= i < |h.dates| ==> Canonical(h.dates[i])
    requires WrittenCloses(h, closes)
    ensures DecodeSelected(SeriesObject(h, closes)) == Some(h)
  {
    EncodedEntries(h, closes);
    var points := ReversedPoints(DecodePoint, Entries(h, closes), h);
    SelectedWhole(Reverse(Entries(h, closes)), points, h);
  }

  /** The decoding loop of `get_historical_data` as the service runs it: two
      lists filled in one pass over the window, then each reversed in place. */
  method CollectHistory(ts: Json) returns (r: Option<History>)
    ensures r == DecodeSelected(ts)
  {
    if !Truthy(ts) || !ts.JObject? {
      return None;
    }
    var window := Prefix(ts.members, MaxPoints);
    var dates: seq<string> := [];
    var prices: seq<real> := [];
    ghost var points: seq<(string, real)> := [];
    var i := 0;
    while i < |window|
      invariant 0 <= i <= |window|
      invariant Traverse(DecodePoint, window[..i]) == Some(points)
      invariant Split(points) == History(dates, prices)
    {
      match DecodePoint(window[i])
      case None =>
        TraverseFails(DecodePoint, window, i);
        return None;
      case Some(point) =>
        TraverseStep(DecodePoint, window, i, points, point);
        SplitAppend(points, point);
        points := points + [point];
        dates := dates + [point.0];
        prices := prices + [point.1];
        i := i + 1;
    }
    assert window[..i] == window;
    return Some(History(Reverse(dates), Reverse(prices)));
  }
}
