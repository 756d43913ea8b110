/** `FinancialDataService.get_stock_quote`: the provider's "Global Quote"
    object decoded into a quote record, or nothing. Decoding is all-or-nothing:
    the record is built in one dictionary literal, so a missing key or an
    unreadable field anywhere raises, and the caught exception yields `None`. */
module Quotes {
  import opened Wrappers
  import opened Numbers
  import opened Provider
  import opened Text

  /** The record `get_stock_quote` returns. `changePercent` stays text: the
      service only strips the '%' signs and never converts it to a number.
      `latestTradingDay` is passed through as the provider sent it. */
  datatype Quote = Quote(
    symbol: string,
    price: real,
    change: real,
    changePercent: string,
    volume: int,
    latestTradingDay: Json)

  const GlobalQuoteKey := "Global Quote"
  const SymbolKey := "01. symbol"
  const PriceKey := "05. price"
  const VolumeKey := "06. volume"
  const TradingDayKey := "07. latest trading day"
  const ChangeKey := "09. change"
  const ChangePercentKey := "10. change percent"

  /** The provider's field labels are pairwise different (they differ in their second character). */
  lemma FieldKeysDistinct()
    ensures SymbolKey != PriceKey
    ensures SymbolKey != VolumeKey && PriceKey != VolumeKey
    ensures SymbolKey != TradingDayKey && PriceKey != TradingDayKey && VolumeKey != TradingDayKey
    ensures SymbolKey != ChangeKey && PriceKey != ChangeKey && VolumeKey != ChangeKey && TradingDayKey != ChangeKey
    ensures SymbolKey != ChangePercentKey && PriceKey != ChangePercentKey && VolumeKey != ChangePercentKey
    ensures TradingDayKey != ChangePercentKey && ChangeKey != ChangePercentKey
  {
    assert SymbolKey[1] == '1' && PriceKey[1] == '5' && VolumeKey[1] == '6';
    assert TradingDayKey[1] == '7' && ChangeKey[1] == '9' && ChangePercentKey[1] == '0';
  }

  /** `quote[key].rstrip('%')`: only a string has `rstrip`. */
  function PercentField(q: Json, key: string): (r: Option<string>)
    ensures r.Some? ==> !EndsWith(r.value, '%')
    ensures r.Some? <==> Get(q, key).Some? && Get(q, key).value.JString?
    ensures r.Some? ==> r.value == StripTrailing(Get(q, key).value.s, '%')
  {
    match Get(q, key)
    case Some(JString(s)) => Some(StripTrailing(s, '%'))
    case _ => None
  }

  /** The "Global Quote" object of a reply that arrived. */
  function GlobalQuote(resp: Response): Option<Json> {
    match resp
    case Unavailable => None
    case Received(data) => Get(data, GlobalQuoteKey)
  }

  /** `get_stock_quote(symbol)` once the reply is in hand. */
  function DecodeQuote(symbol: string, resp: Response): (r: Option<Quote>)
    ensures r.Some? ==> r.value.symbol == symbol
    ensures r.Some? ==> !EndsWith(r.value.changePercent, '%')
    ensures r.Some? <==>
      && GlobalQuote(resp).Some?
      && FloatField(GlobalQuote(resp).value, PriceKey).Some?
      && FloatField(GlobalQuote(resp).value, ChangeKey).Some?
      && PercentField(GlobalQuote(resp).value, ChangePercentKey).Some?
      && IntField(GlobalQuote(resp).value, VolumeKey).Some?
      && Get(GlobalQuote(resp).value, TradingDayKey).Some?
    ensures r.Some? ==> var q := GlobalQuote(resp).value;
      && r.value.price == FloatField(q, PriceKey).value
      && r.value.change == FloatField(q, ChangeKey).value
      && r.value.changePercent == PercentField(q, ChangePercentKey).value
      && r.value.volume == IntField(q, VolumeKey).value
      && r.value.latestTradingDay == Get(q, TradingDayKey).value
  {
    var q :- GlobalQuote(resp);
    var price :- FloatField(q, PriceKey);
    var change :- FloatField(q, ChangeKey);
    var changePercent :- PercentField(q, ChangePercentKey);
    var volume :- IntField(q, VolumeKey);
    var day :- Get(q, TradingDayKey);
    Some(Quote(symbol, price, change, changePercent, volume, day))
  }

  // ---------------------------------------------------------------------------
  // A reference encoder: the reply the provider would send for a quote

  /** The provider's "Global Quote" object for `q`, every field as text: price
      and change in the provider's fixed-point form `price` and `change`, the
      volume in decimal, the percentage followed by `percentSigns` '%' signs. */
  function QuoteObject(q: Quote, price: Fixed, change: Fixed, percentSigns: nat): Json
    requires WellFormedFixed(price) && WellFormedFixed(change)
  {
    JObject([
      (SymbolKey, JString(q.symbol)),
      (PriceKey, JString(FixedSignedText(price))),
      (VolumeKey, JString(IntToString(q.volume))),
      (TradingDayKey, q.latestTradingDay),
      (ChangeKey, JString(FixedSignedText(change))),
      (ChangePercentKey, JString(q.changePercent + Repeat('%', percentSigns)))])
  }

  /** The whole reply carrying `q`. */
  function EncodeQuote(q: Quote, price: Fixed, change: Fixed, percentSigns: nat): Json
    requires WellFormedFixed(price) && WellFormedFixed(change)
  {
    JObject([(GlobalQuoteKey, QuoteObject(q, price, change, percentSigns))])
  }

  /** Where the leading fields of the reference reply are found. */
  lemma QuoteObjectLeadingFields(q: Quote, price: Fixed, change: Fixed, percentSigns: nat)
    requires WellFormedFixed(price) && WellFormedFixed(change)
    ensures var o := QuoteObject(q, price, change, percentSigns);
      && Get(o, PriceKey) == Some(JString(FixedSignedText(price)))
      && Get(o, VolumeKey) == Some(JString(IntToString(q.volume)))
      && Get(o, TradingDayKey) == Some(q.latestTradingDay)
  {
    var ms := QuoteObject(q, price, change, percentSigns).members;
    FieldKeysDistinct();
    assert ms[0].0 == SymbolKey && ms[1].0 == PriceKey && ms[2].0 == VolumeKey && ms[3].0 == TradingDayKey;
    assert ms[0..] == ms;
    FindSkip(ms, PriceKey, 0);
    FindHere(ms, PriceKey, 1);
    FindSkip(ms, VolumeKey, 0);
    FindSkip(ms, VolumeKey, 1);
    FindHere(ms, VolumeKey, 2);
    FindSkip(ms, TradingDayKey, 0);
    FindSkip(ms, TradingDayKey, 1);
    FindSkip(ms, TradingDayKey, 2);
    FindHere(ms, TradingDayKey, 3);
  }

  /** Where the trailing fields of the reference reply are found. */
  lemma QuoteObjectTrailingFields(q: Quote, price: Fixed, change: Fixed, percentSigns: nat)
    requires WellFormedFixed(price) && WellFormedFixed(change)
    ensures var o := QuoteObject(q, price, change, percentSigns);
      && Get(o, ChangeKey) == Some(JString(FixedSignedText(change)))
      && Get(o, ChangePercentKey) == Some(JString(q.changePercent + Repeat('%', percentSigns)))
  {
    var ms := QuoteObject(q, price, change, percentSigns).members;
    FieldKeysDistinct();
    assert ms[0].0 == SymbolKey && ms[1].0 == PriceKey && ms[2].0 == VolumeKey;
    assert ms[3].0 == TradingDayKey && ms[4].0 == ChangeKey && ms[5].0 == ChangePercentKey;
    assert ms[0..] == ms;
    FindSkip(ms, ChangeKey, 0);
    FindSkip(ms, ChangeKey, 1);
    FindSkip(ms, ChangeKey, 2);
    FindSkip(ms, ChangeKey, 3);
    FindHere(ms, ChangeKey, 4);
    FindSkip(ms, ChangePercentKey, 0);
    FindSkip(ms, ChangePercentKey, 1);
    FindSkip(ms, ChangePercentKey, 2);
    FindSkip(ms, ChangePercentKey, 3);
    FindSkip(ms, ChangePercentKey, 4);
    FindHere(ms, ChangePercentKey, 5);
  }

  /** `float` reads the reference reply's price and change texts back to `q`'s price and change. */
  lemma QuoteObjectPrices(q: Quote, price: Fixed, change: Fixed, percentSigns: nat)
    requires WellFormedFixed(price) && WellFormedFixed(change)
    requires q.price == FixedSignedValue(price) && q.change == FixedSignedValue(change)
    ensures var o := QuoteObject(q, price, change, percentSigns);
      FloatField(o, PriceKey) == Some(q.price) && FloatField(o, ChangeKey) == Some(q.change)
  {
    var o := QuoteObject(q, price, change, percentSigns);
    QuoteObjectLeadingFields(q, price, change, percentSigns);
    QuoteObjectTrailingFields(q, price, change, percentSigns);
    FloatFieldFixed(o, PriceKey, price);
    FloatFieldFixed(o, ChangeKey, change);
  }

  /** Decoding the provider's reply for `q`, with its price and change written as
      fixed-point text, gives back `q`, whatever number of '%' signs trails the
      percentage, provided `q`'s own percentage text does not end in '%'. */
  lemma DecodeEncodeQuote(q: Quote, price: Fixed, change: Fixed, percentSigns: nat)
    requires WellFormedFixed(price) && WellFormedFixed(change)
    requires q.price == FixedSignedValue(price) && q.change == FixedSignedValue(change)
    requires !EndsWith(q.changePercent, '%')
    ensures DecodeQuote(q.symbol, Received(EncodeQuote(q, price, change, percentSigns))) == Some(q)
  {
    assert GlobalQuote(Received(EncodeQuote(q, price, change, percentSigns))) == Some(QuoteObject(q, price, change, percentSigns));
    var o := QuoteObject(q, price, change, percentSigns);
    QuoteObjectLeadingFields(q, price, change, percentSigns);
    QuoteObjectTrailingFields(q, price, change, percentSigns);
    QuoteObjectPrices(q, price, change, percentSigns);
    ParseIntToString(q.volume);
    StripTrailingRepeat(q.changePercent, '%', percentSigns);
    assert PercentField(o, ChangePercentKey) == Some(q.changePercent);
    assert IntField(o, VolumeKey) == Some(q.volume);
  }

  /** The quote's symbol is the one the caller asked for, never the provider's "01. symbol". */
  lemma SymbolFromCaller(q: Quote, price: Fixed, change: Fixed, asked: string)
    requires WellFormedFixed(price) && WellFormedFixed(change)
    requires q.price == FixedSignedValue(price) && q.change == FixedSignedValue(change)
    requires !EndsWith(q.changePercent, '%')
    ensures DecodeQuote(asked, Received(EncodeQuote(q, price, change, 1))) == Some(q.(symbol := asked))
  {
    DecodeEncodeQuote(q, price, change, 1);
  }

  /** A reply without "Global Quote", or no reply at all, decodes to nothing. */
  lemma NoGlobalQuote(symbol: string, resp: Response)
    requires resp.Unavailable? || Get(resp.body, GlobalQuoteKey).None?
    ensures DecodeQuote(symbol, resp) == None
  {
  }

  /** The provider's reply for an unknown symbol, `{"Global Quote": {}}`, decodes to nothing. */
  lemma EmptyGlobalQuote(symbol: string)
    ensures DecodeQuote(symbol, Received(JObject([(GlobalQuoteKey, JObject([]))]))) == None
  {
  }

  /** A price that is not a number makes the whole quote unavailable, however good the other fields are. */
  lemma UnreadablePriceDiscardsQuote(q: Quote, percentSigns: nat, text: string)
    requires ParseReal(text).None?
    ensures DecodeQuote(q.symbol, Received(JObject([(GlobalQuoteKey, JObject([
      (PriceKey, JString(text)),
      (VolumeKey, JString(IntToString(q.volume))),
      (TradingDayKey, q.latestTradingDay),
      (ChangeKey, JNumber(q.change)),
      (ChangePercentKey, JString(q.changePercent))]))]))) == None
  {
  }
}
