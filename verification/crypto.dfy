/** The cryptocurrency tool (`tools/crypto_tools.py`): the current price in
    the upper-cased currency, and, when both dates are given, the prices at
    the UTC midnights of those dates and the percentage change between them.
    The two CryptoCompare endpoints are parameters: a function from the
    request's query values to the reply. */
module Crypto {
  import opened Common
  import Calendar
  import opened Models

  /** A reply of `/data/price?fsym=ID&tsyms=CUR`: `{CUR: price}`. */
  datatype PriceReply = PriceRequestFailed(message: string) | PriceJson(prices: map<string, real>)

  /** A reply of `/data/pricehistorical?fsym=ID&tsyms=CUR&ts=T`: `{ID: {CUR: price}}`. */
  datatype HistoricalReply = HistoryRequestFailed(message: string) | HistoryJson(prices: map<string, map<string, real>>)

  /** A value of the result dict. */
  datatype CryptoValue = Text(text: string) | Number(number: real)

  function NoHistoricalMessage(cryptoId: string, date: string): string
  {
    "No historical data found for " + cryptoId + " on " + date
  }

  /** `get_historical_price`: parse the date (a parse failure is raised as is), ask for the
      price at its UTC midnight in the upper-cased currency, and look it up in the reply. */
  function GetHistoricalPrice(cryptoId: string, date: string, vsCurrency: string,
                              fetch: (string, string, int) -> HistoricalReply): (r: Result<real, Exc>)
    ensures r.Err? ==> r.error.kind == ValueError
    ensures Calendar.Strptime(date).Err? ==> r == Err(ValueErr(Calendar.Strptime(date).error))
    ensures Calendar.Strptime(date).Ok? ==>
              var reply := fetch(cryptoId, Upper(vsCurrency), Calendar.EpochSeconds(Calendar.Strptime(date).value));
              && (reply.HistoryRequestFailed? ==>
                    r == Err(ValueErr("Error fetching historical data for " + cryptoId + " on " + date + ": " + reply.message)))
              && (reply.HistoryJson? ==>
                    if cryptoId in reply.prices && Upper(vsCurrency) in reply.prices[cryptoId]
                    then r == Ok(reply.prices[cryptoId][Upper(vsCurrency)])
                    else r == Err(ValueErr(NoHistoricalMessage(cryptoId, date))))
  {
    match Calendar.Strptime(date)
    case Err(message) => Err(ValueErr(message))
    case Ok(d) =>
      var currency := Upper(vsCurrency);
      match fetch(cryptoId, currency, Calendar.EpochSeconds(d))
      case HistoryRequestFailed(message) =>
        Err(ValueErr("Error fetching historical data for " + cryptoId + " on " + date + ": " + message))
      case HistoryJson(prices) =>
        if cryptoId !in prices || currency !in prices[cryptoId] then
          Err(ValueErr(NoHistoricalMessage(cryptoId, date)))
        else
          Ok(prices[cryptoId][currency])
  }

  /** The change from `startPrice` to `endPrice` in percent of `startPrice`, or 0 when the start is not positive. */
  function PriceIncreasePercentage(startPrice: real, endPrice: real): (p: real)
    ensures startPrice > 0.0 ==> p * startPrice == (endPrice - startPrice) * 100.0
    ensures startPrice <= 0.0 ==> p == 0.0
  {
    if startPrice > 0.0 then (endPrice - startPrice) / startPrice * 100.0 else 0.0
  }

  /** From a positive start, the percentage is positive exactly when the price rose. */
  lemma PriceIncreaseSign(startPrice: real, endPrice: real)
    requires startPrice > 0.0
    ensures PriceIncreasePercentage(startPrice, endPrice) > 0.0 <==> endPrice > startPrice
    ensures PriceIncreasePercentage(startPrice, endPrice) == 0.0 <==> endPrice == startPrice
  {
    var p := PriceIncreasePercentage(startPrice, endPrice);
    assert p == (endPrice - startPrice) * 100.0 / startPrice;
  }

  const BaseKeys: set<string> := {"crypto_id", "vs_currency", "current_price"}
  const RangeKeys: set<string> := {"start_date", "end_date", "start_price", "end_price", "price_increase_percentage"}

  /** The range entries add keys; they never overwrite the base entries. */
  lemma KeySetsDisjoint()
    ensures BaseKeys !! RangeKeys
  {
    forall k | k in BaseKeys
      ensures k !in RangeKeys
    {
      assert |k| >= 9 && k[0] in {'c', 'v'};
    }
  }

  /** The dict `get_crypto_data` starts from. */
  function BaseEntries(cryptoId: string, vsCurrency: string, currentPrice: real): (m: map<string, CryptoValue>)
    ensures m.Keys == BaseKeys
    ensures m["crypto_id"] == Text(cryptoId) && m["vs_currency"] == Text(vsCurrency)
    ensures m["current_price"] == Number(currentPrice)
  {
    map["crypto_id" := Text(cryptoId), "vs_currency" := Text(vsCurrency), "current_price" := Number(currentPrice)]
  }

  /** The entries the date branch adds with `result.update`. */
  function RangeEntries(startDate: string, endDate: string, startPrice: real, endPrice: real)
    : (m: map<string, CryptoValue>)
    ensures m.Keys == RangeKeys
    ensures m["start_date"] == Text(startDate) && m["end_date"] == Text(endDate)
    ensures m["start_price"] == Number(startPrice) && m["end_price"] == Number(endPrice)
    ensures m["price_increase_percentage"] == Number(PriceIncreasePercentage(startPrice, endPrice))
  {
    map["start_date" := Text(startDate), "end_date" := Text(endDate),
        "start_price" := Number(startPrice), "end_price" := Number(endPrice),
        "price_increase_percentage" := Number(PriceIncreasePercentage(startPrice, endPrice))]
  }

  /** `get_crypto_data`: build the result dict, then `update` it with the range entries when both dates are given. */
  method GetCryptoData(input: CryptoInput, current: (string, string) -> PriceReply,
                       historical: (string, string, int) -> HistoricalReply)
    returns (r: Result<map<string, CryptoValue>, Exc>)
    ensures r.Err? ==> r.error.kind == ValueError
    // a result exactly when the current price is there and, with both dates, both historical prices
    ensures r.Ok? <==>
              var reply := current(input.cryptoId, Upper(input.vsCurrency));
              && reply.PriceJson? && Upper(input.vsCurrency) in reply.prices
              && (BothDatesGiven(input) ==>
                    && GetHistoricalPrice(input.cryptoId, input.startDate.value, input.vsCurrency, historical).Ok?
                    && GetHistoricalPrice(input.cryptoId, input.endDate.value, input.vsCurrency, historical).Ok?)
    ensures current(input.cryptoId, Upper(input.vsCurrency)).PriceRequestFailed? ==>
              r == Err(ValueErr("Error fetching crypto data for " + input.cryptoId + ": "
                                + current(input.cryptoId, Upper(input.vsCurrency)).message))
    ensures current(input.cryptoId, Upper(input.vsCurrency)).PriceJson?
            && Upper(input.vsCurrency) !in current(input.cryptoId, Upper(input.vsCurrency)).prices ==>
              r == Err(ValueErr("No data found for cryptocurrency " + input.cryptoId))
    // the entries every result has: the id, the currency as given, the current price
    ensures r.Ok? ==>
              var reply := current(input.cryptoId, Upper(input.vsCurrency));
              && reply.PriceJson? && Upper(input.vsCurrency) in reply.prices
              && BaseKeys <= r.value.Keys
              && r.value["crypto_id"] == Text(input.cryptoId)
              && r.value["vs_currency"] == Text(input.vsCurrency)
              && r.value["current_price"] == Number(reply.prices[Upper(input.vsCurrency)])
    ensures r.Ok? && !BothDatesGiven(input) ==> r.value.Keys == BaseKeys
    // with both dates: the range entries are added and the percentage compares the two prices
    ensures r.Ok? && BothDatesGiven(input) ==>
              var s := GetHistoricalPrice(input.cryptoId, input.startDate.value, input.vsCurrency, historical);
              var e := GetHistoricalPrice(input.cryptoId, input.endDate.value, input.vsCurrency, historical);
              && s.Ok? && e.Ok?
              && r.value.Keys == BaseKeys + RangeKeys
              && r.value["start_date"] == Text(input.startDate.value)
              && r.value["end_date"] == Text(input.endDate.value)
              && r.value["start_price"] == Number(s.value)
              && r.value["end_price"] == Number(e.value)
              && r.value["price_increase_percentage"] == Number(PriceIncreasePercentage(s.value, e.value))
    ensures BothDatesGiven(input) && r.Err? && current(input.cryptoId, Upper(input.vsCurrency)).PriceJson?
            && Upper(input.vsCurrency) in current(input.cryptoId, Upper(input.vsCurrency)).prices ==>
              var s := GetHistoricalPrice(input.cryptoId, input.startDate.value, input.vsCurrency, historical);
              var e := GetHistoricalPrice(input.cryptoId, input.endDate.value, input.vsCurrency, historical);
              && (s.Err? ==> r == Err(s.error))
              && (s.Ok? ==> e.Err? && r == Err(e.error))
  {
    var currency := Upper(input.vsCurrency);
    var reply := current(input.cryptoId, currency);
    if reply.PriceRequestFailed? {
      return Err(ValueErr("Error fetching crypto data for " + input.cryptoId + ": " + reply.message));
    }
    if currency !in reply.prices {
      return Err(ValueErr("No data found for cryptocurrency " + input.cryptoId));
    }
    var result := BaseEntries(input.cryptoId, input.vsCurrency, reply.prices[currency]);
    if BothDatesGiven(input) {
      var startPrice := GetHistoricalPrice(input.cryptoId, input.startDate.value, input.vsCurrency, historical);
      if startPrice.Err? {
        return Err(startPrice.error);
      }
      var endPrice := GetHistoricalPrice(input.cryptoId, input.endDate.value, input.vsCurrency, historical);
      if endPrice.Err? {
        return Err(endPrice.error);
      }
      var added := RangeEntries(input.startDate.value, input.endDate.value, startPrice.value, endPrice.value);
      KeySetsDisjoint();
      result := result + added;
    }
    return Ok(result);
  }

  /** `if input_data.start_date and input_data.end_date` */
  predicate BothDatesGiven(input: CryptoInput)
  {
    Truthy(input.startDate) && Truthy(input.endDate)
  }

  /** The schema only lets through dates that parse, so for validated input the
      historical lookups never fail on the date itself: they ask for the UTC
      midnights of the two dates. */
  lemma ValidatedDatesParse(cryptoId: string, vsCurrency: Option<string>,
                            startDate: Option<string>, endDate: Option<string>)
    requires ValidateCrypto(cryptoId, vsCurrency, startDate, endDate).Ok?
    ensures var input := ValidateCrypto(cryptoId, vsCurrency, startDate, endDate).value;
            BothDatesGiven(input) ==>
              && Calendar.Strptime(input.startDate.value).Ok?
              && Calendar.Strptime(input.endDate.value).Ok?
  {
  }
}
