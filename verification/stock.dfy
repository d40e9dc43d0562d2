/** The stock-price tool (`tools/stock_tools.py`): the last close of the
    one-day history is the current price, and the closes of the requested
    range are added when both dates are given. The two yfinance history
    calls are parameters. */
module Stock {
  import opened Common
  import opened Models

  /** A close series, `hist["Close"]`, as (timestamp, close) pairs in time order. */
  type Closes = seq<(string, real)>

  /** The outcome of one `Ticker.history` call: the series, or the exception it raised. */
  datatype PriceFetch = Fetched(closes: Closes) | FetchFailed(exc: Exc)

  /** The result dict of `get_stock_prices`. */
  datatype StockPrices = StockPrices(symbol: string, currentPrice: real, historicalData: Option<Closes>)

  function NoHistoryMessage(symbol: string, startDate: string, endDate: string): string
  {
    "No historical data for " + symbol + " between " + startDate + " and " + endDate
  }

  function NoCurrentMessage(symbol: string): string
  {
    "No current data available for " + symbol
  }

  /** Both dates present and non-empty (`if start_date and end_date`). */
  predicate BothDates(startDate: Option<string>, endDate: Option<string>)
  {
    Truthy(startDate) && Truthy(endDate)
  }

  /** `validate_data`: the `ValueError` it raises, if any. */
  function ValidateData(data: Closes, symbol: string, startDate: Option<string>, endDate: Option<string>)
    : (r: Option<Exc>)
    ensures r.None? <==> data != []
    ensures data == [] && BothDates(startDate, endDate) ==>
              r == Some(ValueErr(NoHistoryMessage(symbol, startDate.value, endDate.value)))
    ensures data == [] && !BothDates(startDate, endDate) ==> r == Some(ValueErr(NoCurrentMessage(symbol)))
  {
    var message :=
      if data == [] then
        if BothDates(startDate, endDate) then Some(NoHistoryMessage(symbol, startDate.value, endDate.value))
        else Some(NoCurrentMessage(symbol))
      else None;
    if message.Some? && message.value != [] then Some(ValueErr(message.value)) else None
  }

  /** The handlers of `get_stock_prices`: a `ValueError` passes unchanged, anything
      else becomes a `ValueError` naming the symbol. */
  function Reraise(symbol: string, e: Exc): (r: Exc)
    ensures r.kind == ValueError
    ensures e.kind == ValueError ==> r == e
    ensures e.kind != ValueError ==> r.message == "Error fetching stock prices for " + symbol + ": " + e.message
  {
    if e.kind == ValueError then e
    else ValueErr("Error fetching stock prices for " + symbol + ": " + e.message)
  }

  /** `get_stock_prices`: `current` is `history(period="1d")`, `history` the dated
      call, made only when both dates are given. */
  function GetStockPrices(input: StockPriceInput, current: PriceFetch, history: PriceFetch)
    : (r: Result<StockPrices, Exc>)
    ensures r.Err? ==> r.error.kind == ValueError
    ensures current.FetchFailed? ==> r == Err(Reraise(input.symbol, current.exc))
    ensures current == Fetched([]) ==> r == Err(ValueErr(NoCurrentMessage(input.symbol)))
    ensures r.Ok? ==> current.Fetched? && current.closes != []
                      && r.value.symbol == input.symbol
                      && r.value.currentPrice == current.closes[|current.closes| - 1].1
    ensures r.Ok? ==> (r.value.historicalData.Some? <==> BothDates(input.startDate, input.endDate))
    ensures r.Ok? && r.value.historicalData.Some? ==>
              history.Fetched? && history.closes != [] && r.value.historicalData.value == history.closes
    // a result exactly when the current close is there and, with both dates, the dated closes too
    ensures r.Ok? <==> current.Fetched? && current.closes != []
                       && (BothDates(input.startDate, input.endDate) ==> history.Fetched? && history.closes != [])
    ensures current.Fetched? && current.closes != [] && BothDates(input.startDate, input.endDate) ==>
              && (history.FetchFailed? ==> r == Err(Reraise(input.symbol, history.exc)))
              && (history == Fetched([]) ==>
                    r == Err(ValueErr(NoHistoryMessage(input.symbol, input.startDate.value, input.endDate.value))))
  {
    match current
    case FetchFailed(e) => Err(Reraise(input.symbol, e))
    case Fetched(now) =>
      match ValidateData(now, input.symbol, None, None)
      case Some(e) => Err(Reraise(input.symbol, e))
      case None =>
        var currentPrice := now[|now| - 1].1;
        if BothDates(input.startDate, input.endDate) then
          match history
          case FetchFailed(e) => Err(Reraise(input.symbol, e))
          case Fetched(hist) =>
            match ValidateData(hist, input.symbol, input.startDate, input.endDate)
            case Some(e) => Err(Reraise(input.symbol, e))
            case None => Ok(StockPrices(input.symbol, currentPrice, Some(hist)))
        else
          Ok(StockPrices(input.symbol, currentPrice, None))
  }

  /** Without both dates the dated history is never consulted. */
  lemma HistoryOnlyWithBothDates(input: StockPriceInput, current: PriceFetch, h1: PriceFetch, h2: PriceFetch)
    requires !BothDates(input.startDate, input.endDate)
    ensures GetStockPrices(input, current, h1) == GetStockPrices(input, current, h2)
    ensures GetStockPrices(input, current, h1).Ok? ==> GetStockPrices(input, current, h1).value.historicalData == None
  {
  }

  /** An empty dated history names the symbol and both dates. */
  lemma EmptyHistoryNamesRange(input: StockPriceInput, now: Closes)
    requires now != [] && BothDates(input.startDate, input.endDate)
    ensures GetStockPrices(input, Fetched(now), Fetched([]))
         == Err(ValueErr(NoHistoryMessage(input.symbol, input.startDate.value, input.endDate.value)))
  {
  }
}
