/** The six tools of `tools/financial_dashboard_tools.py`. Every fetch
    (yfinance, CoinGecko, the BEA request, CSV files, the simulator) is a
    parameter holding the fetched data or the exception the model gives it. */
module Dashboard {
  import opened Common
  import opened Dicts
  import opened Frames
  import Stock
  import Models

  // ---------------------------------------------------------------------
  // 1. get_spending_breakdown

  /** Every amount divided by `1000` (`spending_df["amount"] / 1000`), keys unchanged. */
  function ScaleDown(d: Dict<real>): (r: Dict<real>)
    ensures Keys(r) == Keys(d)
    ensures |r| == |d| && forall i :: 0 <= i < |d| ==> r[i].1 == d[i].1 / 1000.0
  {
    seq(|d|, i requires 0 <= i < |d| => (d[i].0, d[i].1 / 1000.0))
  }

  lemma {:induction false} ScaleDownSum(d: Dict<real>)
    ensures SumValues(ScaleDown(d)) == SumValues(d) / 1000.0
  {
    if d != [] {
      ScaleDownSum(d[1..]);
      assert ScaleDown(d)[1..] == ScaleDown(d[1..]);
      assert Values(ScaleDown(d)) == [d[0].1 / 1000.0] + Values(ScaleDown(d[1..]));
      assert Values(d) == [d[0].1] + Values(d[1..]);
    }
  }

  /** What the pre-grouping of the local CSV file raises when a column is missing
      (`groupby("category")` first, then `["amount"]`). */
  function RegroupError(f: Frame): (e: Exc)
    requires !HasSpendingColumns(f)
    ensures e.kind == KeyError
  {
    if "category" !in f.columns then Exc(KeyError, "'category'")
    else Exc(KeyError, "'Column not found: amount'")
  }

  /** What `sum(breakdown.values())` raises when the group-by concatenated text amounts. */
  const SumTypeErrorMessage: string := "unsupported operand type(s) for +: 'int' and 'str'"

  /** The column check, the group-by and the total, as the dashboard performs them: there is
      no dtype check, so text amounts reach `sum`, which fails unless there are no rows. */
  function Breakdown(f: Frame, source: string): (r: Result<SpendingBreakdown, Exc>)
    ensures r.Ok? <==> HasSpendingColumns(f) && (f.numericAmount || f.rows == [])
    ensures !HasSpendingColumns(f) ==> r == Err(ValueErr(MissingColumnsMessage))
    ensures HasSpendingColumns(f) && !f.numericAmount && f.rows != [] ==>
              r == Err(Exc(TypeError, SumTypeErrorMessage))
    ensures r.Ok? ==> r.value == Summarize(f.rows, source)
  {
    if !HasSpendingColumns(f) then Err(ValueErr(MissingColumnsMessage))
    else if !f.numericAmount && f.rows != [] then Err(Exc(TypeError, SumTypeErrorMessage))
    else Ok(Summarize(f.rows, source))
  }

  /** `get_spending_breakdown` up to the chart. `readCsv(path)` is `pd.read_csv(path)` (its `Err`
      is the exception it raised, which only the `OSError` handler rewrites), `bea` the outcome of `get_bea_spending_data(year)`, `localCsv` the
      reading of the bundled data file when it exists, and `simulated` the frame of the data
      simulator (its `Err` is the `OSError` text of the simulator's CSV write). */
  function LoadBreakdown(dataSource: Option<string>, useBea: bool,
                                readCsv: string -> Result<Frame, Exc>,
                                bea: Result<Dict<real>, Exc>,
                                localCsv: Option<Result<Frame, Exc>>,
                                simulated: Result<Frame, string>): (r: Result<SpendingBreakdown, Exc>)
    // the sources, in order of precedence
    ensures Truthy(dataSource) ==>
              r == match readCsv(dataSource.value)
                   case Err(e) => Err(CatchOsError(e, OsErrorPrefix))
                   case Ok(f) => Breakdown(f, "csv")
    ensures !Truthy(dataSource) && useBea ==>
              r == match bea
                   case Err(e) => Err(e)
                   case Ok(d) => Ok(Summarize(ScaleDown(d), "bea_api"))
    ensures !Truthy(dataSource) && !useBea && localCsv.Some? && localCsv.value.Err? ==>
              r == Err(CatchOsError(localCsv.value.error, OsErrorPrefix))
    ensures !Truthy(dataSource) && !useBea && localCsv.Some? && localCsv.value.Ok? ==>
              var f := localCsv.value.value;
              r == if !HasSpendingColumns(f) then Err(RegroupError(f))
                   else if !f.numericAmount && f.rows != [] then Err(Exc(TypeError, SumTypeErrorMessage))
                   else Ok(Summarize(GroupSum(f.rows), "csv"))
    ensures !Truthy(dataSource) && !useBea && localCsv.None? ==>
              r == match simulated
                   case Err(message) => Err(ValueErr(OsErrorPrefix + message))
                   case Ok(f) => Breakdown(f, "simulated")
    // every breakdown's total is the sum of its entries
    ensures r.Ok? ==> r.value.totalSpent == SumValues(r.value.breakdown) && IsDict(r.value.breakdown)
  {
    if Truthy(dataSource) then
      match readCsv(dataSource.value)
      case Err(e) => Err(CatchOsError(e, OsErrorPrefix))
      case Ok(f) => Breakdown(f, "csv")
    else if useBea then
      match bea
      case Err(e) => Err(e)
      case Ok(d) =>
        // the aggregated BEA frame has exactly the two columns
        Breakdown(Frame({"category", "amount"}, ScaleDown(d), true), "bea_api")
    else if localCsv.Some? then
      match localCsv.value
      case Err(e) => Err(CatchOsError(e, OsErrorPrefix))
      case Ok(f) =>
        if !HasSpendingColumns(f) then Err(RegroupError(f))
        else
          GroupSumEmpty(f.rows);
          Breakdown(Frame({"category", "amount"}, GroupSum(f.rows), f.numericAmount), "csv")
    else
      match simulated
      case Err(message) => Err(ValueErr(OsErrorPrefix + message))
      case Ok(f) => Breakdown(f, "simulated")
  }

  /** The handler's prefix for an `OSError`, from reading a file or saving the chart. */
  const OsErrorPrefix: string := "Error generating spending breakdown: "

  /** `get_spending_breakdown`: the breakdown, then the pie chart, whose `savefig` failure is
      `saveError`. */
  function GetSpendingBreakdown(dataSource: Option<string>, useBea: bool,
                                readCsv: string -> Result<Frame, Exc>,
                                bea: Result<Dict<real>, Exc>,
                                localCsv: Option<Result<Frame, Exc>>,
                                simulated: Result<Frame, string>,
                                saveError: Option<string>): (r: Result<SpendingBreakdown, Exc>)
    ensures r == Render(LoadBreakdown(dataSource, useBea, readCsv, bea, localCsv, simulated), saveError, OsErrorPrefix)
    ensures r.Ok? ==> r.value.totalSpent == SumValues(r.value.breakdown) && IsDict(r.value.breakdown)
  {
    Render(LoadBreakdown(dataSource, useBea, readCsv, bea, localCsv, simulated), saveError, OsErrorPrefix)
  }

  /** Grouping keeps a table empty exactly when it was empty. */
  lemma GroupSumEmpty(rows: Dict<real>)
    ensures GroupSum(rows) == [] <==> rows == []
  {
    if rows != [] {
      assert Keys(rows)[0] == rows[0].0;
      GroupSumKeys(rows, rows[0].0);
    }
  }

  /** The BEA branch reports the BEA categories in thousands: each entry is the BEA
      amount divided by 1000, and so is the total, once the chart of those non-negative
      amounts is saved. */
  lemma BeaBreakdownInThousands(d: Dict<real>, readCsv: string -> Result<Frame, Exc>,
                                localCsv: Option<Result<Frame, Exc>>, simulated: Result<Frame, string>)
    requires IsDict(d) && NonNegativeAmounts(d)
    ensures var r := GetSpendingBreakdown(None, true, readCsv, Ok(d), localCsv, simulated, None);
            && r.Ok? && r.value.source == "bea_api"
            && r.value.breakdown == ScaleDown(d)
            && r.value.totalSpent == SumValues(d) / 1000.0
  {
    assert IsDict(ScaleDown(d));
    assert NonNegativeAmounts(ScaleDown(d));
    GroupSumOfDict(ScaleDown(d));
    ScaleDownSum(d);
  }

  /** For numeric amounts, grouping the bundled file before the breakdown's own group-by
      makes no difference. */
  lemma LocalCsvRegroupHarmless(f: Frame, readCsv: string -> Result<Frame, Exc>,
                                bea: Result<Dict<real>, Exc>, simulated: Result<Frame, string>)
    requires HasSpendingColumns(f) && f.numericAmount
    ensures LoadBreakdown(None, false, readCsv, bea, Some(Ok(f)), simulated)
         == Ok(SpendingBreakdown(GroupSum(f.rows), SumValues(f.rows), "csv"))
  {
    GroupSumIdempotent(f.rows);
    GroupSumTotal(f.rows);
    GroupSumTotal(GroupSum(f.rows));
  }

  // ---------------------------------------------------------------------
  // 2. get_stock_prices

  /** The dashboard's own `get_stock_prices`, on the same two history calls as the stock tool. */
  function GetStockPrices(symbol: string, startDate: Option<string>, endDate: Option<string>,
                          current: Stock.PriceFetch, history: Stock.PriceFetch)
    : (r: Result<Stock.StockPrices, Exc>)
    ensures r.Err? ==> r.error.kind == ValueError
    ensures r.Ok? <==> current.Fetched? && current.closes != []
                       && (Stock.BothDates(startDate, endDate) ==> history.Fetched? && history.closes != [])
    ensures current.FetchFailed? ==> r == Err(Stock.Reraise(symbol, current.exc))
    ensures current == Stock.Fetched([]) ==> r == Err(ValueErr("No current data available for " + symbol))
    ensures current.Fetched? && current.closes != [] && Stock.BothDates(startDate, endDate) && history.FetchFailed? ==>
              r == Err(Stock.Reraise(symbol, history.exc))
    ensures current.Fetched? && current.closes != [] && Stock.BothDates(startDate, endDate) && history == Stock.Fetched([]) ==>
              r == Err(ValueErr("No historical data for " + symbol + " between " + startDate.value + " and " + endDate.value))
    ensures r.Ok? ==> r.value.symbol == symbol && current.Fetched? && current.closes != []
                      && r.value.currentPrice == current.closes[|current.closes| - 1].1
    ensures r.Ok? ==> (r.value.historicalData.Some? <==> Stock.BothDates(startDate, endDate))
                      && (r.value.historicalData.Some? ==> r.value.historicalData.value == history.closes)
  {
    if current.FetchFailed? then Err(Stock.Reraise(symbol, current.exc))
    else if current.closes == [] then Err(ValueErr("No current data available for " + symbol))
    else
      var currentPrice := current.closes[|current.closes| - 1].1;
      if Truthy(startDate) && Truthy(endDate) then
        if history.FetchFailed? then Err(Stock.Reraise(symbol, history.exc))
        else if history.closes == [] then
          Err(ValueErr("No historical data for " + symbol + " between " + startDate.value + " and " + endDate.value))
        else Ok(Stock.StockPrices(symbol, currentPrice, Some(history.closes)))
      else Ok(Stock.StockPrices(symbol, currentPrice, None))
  }

  /** The dashboard tool and the stock tool behave identically on the same history. */
  lemma StockToolsAgree(symbol: string, startDate: Option<string>, endDate: Option<string>,
                        current: Stock.PriceFetch, history: Stock.PriceFetch)
    ensures GetStockPrices(symbol, startDate, endDate, current, history)
         == Stock.GetStockPrices(Models.StockPriceInput(symbol, startDate, endDate), current, history)
  {
  }

  // ---------------------------------------------------------------------
  // 3. calculate_investment_return

  /** `(initial / start * end - initial) / initial * 100`, the return of buying at `startPrice`
      and valuing at `endPrice`: it depends only on the two prices, not on the amount invested. */
  function ReturnPercentage(initialAmount: real, startPrice: real, endPrice: real): (p: real)
    requires initialAmount != 0.0 && startPrice != 0.0
    ensures p == (endPrice / startPrice - 1.0) * 100.0
  {
    var a := initialAmount;
    var growth := endPrice / startPrice - 1.0;
    assert a / startPrice * endPrice == a * (endPrice / startPrice);
    assert a / startPrice * endPrice - a == a * growth;
    assert growth == (a * growth) / a;
    (a / startPrice * endPrice - a) / a * 100.0
  }

  /** The result dict of `calculate_investment_return`. */
  datatype InvestmentReturn = InvestmentReturn(
    symbol: string, initialAmount: real, startDate: string, endDate: string,
    startPrice: real, endPrice: real, shares: real, finalValue: real,
    profitLoss: real, percentageReturn: real)

  const DivisionByZeroMessage: string := "float division by zero"

  /** `calculate_investment_return` on the closes of the requested range. */
  function CalculateInvestmentReturn(symbol: string, initialAmount: real, startDate: string, endDate: string,
                                     history: Stock.PriceFetch): (r: Result<InvestmentReturn, Exc>)
    ensures r.Err? ==> r.error.kind == ValueError
    ensures initialAmount <= 0.0 ==> r == Err(ValueErr("Initial amount must be positive"))
    ensures initialAmount > 0.0 && history == Stock.Fetched([]) ==>
              r == Err(ValueErr(Stock.NoHistoryMessage(symbol, startDate, endDate)))
    ensures initialAmount > 0.0 && history.FetchFailed? ==>
              r == Err(if history.exc.kind == ValueError then history.exc
                       else ValueErr("Error calculating investment return for " + symbol + ": " + history.exc.message))
    ensures initialAmount > 0.0 && history.Fetched? && history.closes != [] && history.closes[0].1 == 0.0 ==>
              r == Err(ValueErr("Error calculating investment return for " + symbol + ": " + DivisionByZeroMessage))
    ensures r.Ok? <==> initialAmount > 0.0 && history.Fetched? && history.closes != [] && history.closes[0].1 != 0.0
    ensures r.Ok? ==>
              var v := r.value;
              && initialAmount > 0.0 && history.Fetched? && history.closes != []
              && v.symbol == symbol && v.initialAmount == initialAmount
              && v.startDate == startDate && v.endDate == endDate
              && v.startPrice == history.closes[0].1
              && v.endPrice == history.closes[|history.closes| - 1].1
              && v.shares * v.startPrice == initialAmount
              && v.finalValue == v.shares * v.endPrice
              && v.profitLoss == v.finalValue - initialAmount
              && v.percentageReturn == ReturnPercentage(initialAmount, v.startPrice, v.endPrice)
  {
    if initialAmount <= 0.0 then Err(ValueErr("Initial amount must be positive"))
    else
      match history
      case FetchFailed(e) =>
        if e.kind == ValueError then Err(e)
        else Err(ValueErr("Error calculating investment return for " + symbol + ": " + e.message))
      case Fetched(closes) =>
        if closes == [] then Err(ValueErr(Stock.NoHistoryMessage(symbol, startDate, endDate)))
        else
          var startPrice := closes[0].1;
          var endPrice := closes[|closes| - 1].1;
          if startPrice == 0.0 then
            Err(ValueErr("Error calculating investment return for " + symbol + ": " + DivisionByZeroMessage))
          else
            var shares := initialAmount / startPrice;
            var finalValue := shares * endPrice;
            var profitLoss := finalValue - initialAmount;
            var percentageReturn := profitLoss / initialAmount * 100.0;
            Ok(InvestmentReturn(symbol, initialAmount, startDate, endDate, startPrice, endPrice,
                                shares, finalValue, profitLoss, percentageReturn))
  }

  // ---------------------------------------------------------------------
  // 4. get_crypto_data (CoinGecko markets)

  /** One element of the markets reply; a key may be missing. */
  datatype MarketEntry = MarketEntry(currentPrice: Option<real>, priceChange24h: Option<real>)

  datatype MarketsReply = MarketsRequestFailed(message: string) | Markets(entries: seq<MarketEntry>)

  datatype CryptoSnapshot = CryptoSnapshot(cryptoId: string, vsCurrency: string,
                                           currentPrice: real, priceChange24h: real)

  /** `get_crypto_data`: the first market entry's price and 24-hour change. */
  function GetCryptoData(cryptoId: string, vsCurrency: string, reply: MarketsReply)
    : (r: Result<CryptoSnapshot, Exc>)
    ensures r.Err? ==> r.error.kind == ValueError
    ensures reply.MarketsRequestFailed? ==>
              r == Err(ValueErr("Error fetching crypto data for " + cryptoId + ": " + reply.message))
    ensures reply == Markets([]) ==> r == Err(ValueErr("No data found for cryptocurrency " + cryptoId))
    ensures reply.Markets? && reply.entries != [] && reply.entries[0].currentPrice.None? ==>
              r == Err(ValueErr("Error parsing crypto data for " + cryptoId + ": 'current_price'"))
    ensures reply.Markets? && reply.entries != [] && reply.entries[0].currentPrice.Some?
            && reply.entries[0].priceChange24h.None? ==>
              r == Err(ValueErr("Error parsing crypto data for " + cryptoId + ": 'price_change_percentage_24h'"))
    ensures r.Ok? <==> reply.Markets? && reply.entries != []
                       && reply.entries[0].currentPrice.Some? && reply.entries[0].priceChange24h.Some?
    ensures r.Ok? ==> r.value == CryptoSnapshot(cryptoId, vsCurrency, reply.entries[0].currentPrice.value,
                                                reply.entries[0].priceChange24h.value)
  {
    match reply
    case MarketsRequestFailed(message) =>
      Err(ValueErr("Error fetching crypto data for " + cryptoId + ": " + message))
    case Markets(entries) =>
      if entries == [] then Err(ValueErr("No data found for cryptocurrency " + cryptoId))
      else
        var entry := entries[0];
        if entry.currentPrice.None? then
          Err(ValueErr("Error parsing crypto data for " + cryptoId + ": 'current_price'"))
        else if entry.priceChange24h.None? then
          Err(ValueErr("Error parsing crypto data for " + cryptoId + ": 'price_change_percentage_24h'"))
        else
          Ok(CryptoSnapshot(cryptoId, vsCurrency, entry.currentPrice.value, entry.priceChange24h.value))
  }

  // ---------------------------------------------------------------------
  // 5. get_financial_advice

  /** A diversification suggestion; the two weight rules carry the weight they report. */
  datatype Suggestion =
    | AddMoreStocks              // "Consider adding more stocks to diversify your portfolio."
    | StockTooHeavy(weight: real)  // "No single stock should exceed 50% weight. ..."
    | SectorTooHeavy(weight: real) // "No single sector should exceed 60% weight. ..."
    | WellDiversified            // "Your portfolio looks well-diversified."

  datatype Advice = Advice(portfolio: Dict<real>, sectorWeights: Dict<real>, suggestions: seq<Suggestion>)

  const WeightsMessagePrefix: string := "Portfolio weights must sum to 1, got "

  /** Python's `max` of a non-empty sequence. */
  function MaxOf(xs: seq<real>): (m: real)
    requires xs != []
    ensures m in xs
    ensures forall i :: 0 <= i < |xs| ==> xs[i] <= m
  {
    if |xs| == 1 then xs[0]
    else
      var rest := MaxOf(xs[1..]);
      assert forall i :: 1 <= i < |xs| ==> xs[i] == xs[1..][i - 1];
      if xs[0] >= rest then xs[0] else rest
  }

  /** `info.get("sector", "Unknown")` */
  function SectorOf(sectorInfo: string -> Option<string>, symbol: string): (sector: string)
    ensures sectorInfo(symbol).Some? ==> sector == sectorInfo(symbol).value
    ensures sectorInfo(symbol).None? ==> sector == "Unknown"
  {
    match sectorInfo(symbol)
    case Some(sector) => sector
    case None => "Unknown"
  }

  /** The `sectors` dict: each symbol with its sector, in portfolio order. */
  function SectorTable(portfolio: Dict<real>, sectorInfo: string -> Option<string>): (t: Dict<string>)
    ensures Keys(t) == Keys(portfolio)
  {
    seq(|portfolio|, i requires 0 <= i < |portfolio| => (portfolio[i].0, SectorOf(sectorInfo, portfolio[i].0)))
  }

  /** Each holding as a (sector, weight) row. */
  function SectorRows(portfolio: Dict<real>, sectorInfo: string -> Option<string>): (rows: Dict<real>)
    ensures Values(rows) == Values(portfolio)
  {
    seq(|portfolio|, i requires 0 <= i < |portfolio| => (SectorOf(sectorInfo, portfolio[i].0), portfolio[i].1))
  }

  /** The position of a suggestion's rule in the order the rules are checked. */
  function RuleOrder(x: Suggestion): nat
  {
    match x
    case AddMoreStocks => 0
    case StockTooHeavy(_) => 1
    case SectorTooHeavy(_) => 2
    case WellDiversified => 3
  }

  /** The suggestion rules: each applies on its own, the messages come in rule order without
      repeats, the weight messages carry the observed maxima, and the well-diversified message
      stands alone exactly when none applies. */
  function Suggestions(holdings: nat, maxStockWeight: real, maxSectorWeight: real): (s: seq<Suggestion>)
    ensures AddMoreStocks in s <==> holdings < 5
    ensures StockTooHeavy(maxStockWeight) in s <==> maxStockWeight > 0.5
    ensures SectorTooHeavy(maxSectorWeight) in s <==> maxSectorWeight > 0.6
    ensures s == [WellDiversified] <==> holdings >= 5 && maxStockWeight <= 0.5 && maxSectorWeight <= 0.6
    ensures WellDiversified in s ==> s == [WellDiversified]
    ensures forall i, j :: 0 <= i < j < |s| ==> RuleOrder(s[i]) < RuleOrder(s[j])
    ensures forall i :: 0 <= i < |s| && s[i].StockTooHeavy? ==> s[i] == StockTooHeavy(maxStockWeight)
    ensures forall i :: 0 <= i < |s| && s[i].SectorTooHeavy? ==> s[i] == SectorTooHeavy(maxSectorWeight)
    ensures |s| == if s == [WellDiversified] then 1
                   else (if holdings < 5 then 1 else 0) + (if maxStockWeight > 0.5 then 1 else 0)
                        + (if maxSectorWeight > 0.6 then 1 else 0)
  {
    var raised :=
      (if holdings < 5 then [AddMoreStocks] else [])
      + (if maxStockWeight > 0.5 then [StockTooHeavy(maxStockWeight)] else [])
      + (if maxSectorWeight > 0.6 then [SectorTooHeavy(maxSectorWeight)] else []);
    if raised == [] then [WellDiversified] else raised
  }

  /** One pass of the first loop appends holding `i` and its sector: its symbol is new. */
  lemma SectorTableStep(portfolio: Dict<real>, sectorInfo: string -> Option<string>, i: nat)
    requires IsDict(portfolio) && i < |portfolio|
    ensures var symbol := portfolio[i].0;
            Put(SectorTable(portfolio[..i], sectorInfo), symbol, SectorOf(sectorInfo, symbol))
              == SectorTable(portfolio[..i + 1], sectorInfo)
  {
    var symbol := portfolio[i].0;
    KeyNotInPrefix(portfolio, i);
    assert Keys(SectorTable(portfolio[..i], sectorInfo)) == Keys(portfolio[..i]);
    assert portfolio[..i + 1] == portfolio[..i] + [portfolio[i]];
    assert SectorTable(portfolio[..i + 1], sectorInfo)
        == SectorTable(portfolio[..i], sectorInfo) + [(symbol, SectorOf(sectorInfo, symbol))];
  }

  /** The first loop of `get_financial_advice`: each symbol's sector, in portfolio order. */
  method CollectSectors(portfolio: Dict<real>, sectorInfo: string -> Option<string>)
    returns (sectors: Dict<string>)
    requires IsDict(portfolio)
    ensures sectors == SectorTable(portfolio, sectorInfo)
    ensures IsDict(sectors)
  {
    sectors := [];
    var i := 0;
    while i < |portfolio|
      invariant 0 <= i <= |portfolio|
      invariant sectors == SectorTable(portfolio[..i], sectorInfo)
    {
      var symbol := portfolio[i].0;
      SectorTableStep(portfolio, sectorInfo, i);
      sectors := Put(sectors, symbol, SectorOf(sectorInfo, symbol));
      i := i + 1;
    }
    assert portfolio[..i] == portfolio;
    assert Keys(sectors) == Keys(portfolio);
  }

  /** One pass of the second loop adds holding `i`'s weight under the sector the table gives it. */
  lemma SectorWeightStep(portfolio: Dict<real>, sectorInfo: string -> Option<string>, sectors: Dict<string>, i: nat)
    requires IsDict(sectors) && sectors == SectorTable(portfolio, sectorInfo) && i < |portfolio|
    ensures Get(sectors, portfolio[i].0).Some?
    ensures var sector := Get(sectors, portfolio[i].0).value;
            var weights := GroupSum(SectorRows(portfolio, sectorInfo)[..i]);
            GroupSum(SectorRows(portfolio, sectorInfo)[..i + 1])
              == Put(weights, sector, GetOr(weights, sector, 0.0) + portfolio[i].1)
  {
    var rows := SectorRows(portfolio, sectorInfo);
    assert sectors[i] == (portfolio[i].0, SectorOf(sectorInfo, portfolio[i].0));
    GetEntry(sectors, i);
    GroupSumStep(rows, i);
  }

  /** The second loop of `get_financial_advice`: the weights summed per sector. */
  method SumSectorWeights(portfolio: Dict<real>, sectorInfo: string -> Option<string>, sectors: Dict<string>)
    returns (sectorWeights: Dict<real>)
    requires IsDict(sectors) && sectors == SectorTable(portfolio, sectorInfo)
    ensures sectorWeights == GroupSum(SectorRows(portfolio, sectorInfo))
  {
    sectorWeights := [];
    var i := 0;
    while i < |portfolio|
      invariant 0 <= i <= |portfolio|
      invariant sectorWeights == GroupSum(SectorRows(portfolio, sectorInfo)[..i])
    {
      SectorWeightStep(portfolio, sectorInfo, sectors, i);
      var sector := Get(sectors, portfolio[i].0).value;
      sectorWeights := Put(sectorWeights, sector, GetOr(sectorWeights, sector, 0.0) + portfolio[i].1);
      i := i + 1;
    }
    assert SectorRows(portfolio, sectorInfo)[..i] == SectorRows(portfolio, sectorInfo);
  }

  /** The sector weights form a dict whose weights add up to the portfolio's; it is empty
      only for an empty portfolio. */
  lemma SectorWeightsTotal(portfolio: Dict<real>, sectorInfo: string -> Option<string>)
    ensures var weights := GroupSum(SectorRows(portfolio, sectorInfo));
            && IsDict(weights)
            && SumValues(weights) == SumValues(portfolio)
            && (weights == [] <==> portfolio == [])
  {
    var rows := SectorRows(portfolio, sectorInfo);
    GroupSumIsDict(rows);
    GroupSumTotal(rows);
    if portfolio != [] {
      GroupSumKeys(rows, rows[0].0);
      assert Keys(rows)[0] == rows[0].0;
    }
  }

  /** `get_financial_advice`. `sectorInfo(symbol)` is the `sector` entry of the ticker's info,
      and `repr` renders the total in the error message. */
  method GetFinancialAdvice(portfolio: Dict<real>, sectorInfo: string -> Option<string>, repr: real -> string)
    returns (r: Result<Advice, Exc>)
    requires IsDict(portfolio)
    ensures r.Ok? <==> 0.99 <= SumValues(portfolio) <= 1.01
    ensures r.Err? ==> r.error == ValueErr(WeightsMessagePrefix + repr(SumValues(portfolio)))
    ensures r.Ok? ==>
              var advice := r.value;
              && portfolio != []
              && advice.portfolio == portfolio
              && advice.sectorWeights == GroupSum(SectorRows(portfolio, sectorInfo))
              && IsDict(advice.sectorWeights) && advice.sectorWeights != []
              && SumValues(advice.sectorWeights) == SumValues(portfolio)
              && advice.suggestions == Suggestions(|portfolio|, MaxOf(Values(portfolio)), MaxOf(Values(advice.sectorWeights)))
  {
    var totalWeight := SumValues(portfolio);
    if !(0.99 <= totalWeight <= 1.01) {
      return Err(ValueErr(WeightsMessagePrefix + repr(totalWeight)));
    }
    if portfolio == [] {
      assert false;
    }
    var sectors := CollectSectors(portfolio, sectorInfo);
    var sectorWeights := SumSectorWeights(portfolio, sectorInfo, sectors);
    SectorWeightsTotal(portfolio, sectorInfo);

    var maxStockWeight := MaxOf(Values(portfolio));
    var maxSectorWeight := MaxOf(Values(sectorWeights));
    var suggestions := Suggestions(|portfolio|, maxStockWeight, maxSectorWeight);
    return Ok(Advice(portfolio, sectorWeights, suggestions));
  }

  /** Each sector's weight is the total weight of the holdings in that sector, and
      every sector comes from some holding. */
  lemma SectorWeightsAreSums(portfolio: Dict<real>, sectorInfo: string -> Option<string>, sector: string)
    ensures var rows := SectorRows(portfolio, sectorInfo);
            && (sector in Keys(rows) ==> Get(GroupSum(rows), sector) == Some(AmountFor(rows, sector)))
            && (sector !in Keys(rows) ==> Get(GroupSum(rows), sector) == None)
  {
    GroupSumLookup(SectorRows(portfolio, sectorInfo), sector);
  }

  // ---------------------------------------------------------------------
  // 6. analyze_multiple_assets

  datatype Asset = Asset(assetType: string, id: string)

  /** A reply of CoinGecko's `market_chart`: the second components of `prices`, or a missing key. */
  datatype ChartReply = ChartRequestFailed(message: string) | Chart(prices: Option<seq<real>>)

  datatype AssetSummary = AssetSummary(assetType: string, returnPercentage: real)

  datatype Analysis = Analysis(assets: Dict<AssetSummary>, bestAsset: string)

  /** What CPython 3.11 raises for `max` of an empty dict. */
  const EmptyMaxMessage: string := "max() arg is an empty sequence"

  /** The return of buying at `startPrice` and selling at `endPrice`, or the exception raised. */
  function PriceReturn(initialAmount: real, startPrice: real, endPrice: real): (r: Result<real, Exc>)
    requires initialAmount != 0.0
    ensures startPrice == 0.0 <==> r.Err?
    ensures r.Err? ==> r.error == Exc(ZeroDivisionError, DivisionByZeroMessage)
    ensures r.Ok? ==> r.value == (endPrice / startPrice - 1.0) * 100.0
  {
    if startPrice == 0.0 then Err(Exc(ZeroDivisionError, DivisionByZeroMessage))
    else Ok(ReturnPercentage(initialAmount, startPrice, endPrice))
  }

  /** One pass of the loop body: the asset's return, or what it raised (before the outer handlers).
      `stocks(id)` is the outcome of `history(period=f"{days}d")`, `charts(id)` the market-chart reply. */
  function AssetReturn(asset: Asset, initialAmount: real, stocks: string -> Stock.PriceFetch,
                       charts: string -> ChartReply): (r: Result<real, Exc>)
    requires initialAmount != 0.0
    ensures asset.assetType != "stock" && asset.assetType != "crypto" ==>
              r == Err(ValueErr("Invalid asset type: " + asset.assetType))
    // a stock: the first and last close of the history
    ensures asset.assetType == "stock" && stocks(asset.id).FetchFailed? ==> r == Err(stocks(asset.id).exc)
    ensures asset.assetType == "stock" && stocks(asset.id) == Stock.Fetched([]) ==>
              r == Err(ValueErr("No data for stock " + asset.id))
    ensures asset.assetType == "stock" && stocks(asset.id).Fetched? && stocks(asset.id).closes != [] ==>
              var closes := stocks(asset.id).closes;
              r == PriceReturn(initialAmount, closes[0].1, closes[|closes| - 1].1)
    // a crypto: the first and last price of the chart
    ensures asset.assetType == "crypto" && charts(asset.id).ChartRequestFailed? ==>
              r == Err(Exc(RequestException, charts(asset.id).message))
    ensures asset.assetType == "crypto" && charts(asset.id) == Chart(None) ==> r == Err(Exc(KeyError, "'prices'"))
    ensures asset.assetType == "crypto" && charts(asset.id) == Chart(Some([])) ==>
              r == Err(ValueErr("No data for crypto " + asset.id))
    ensures asset.assetType == "crypto" && charts(asset.id).Chart? && charts(asset.id).prices.Some?
            && charts(asset.id).prices.value != [] ==>
              var prices := charts(asset.id).prices.value;
              r == PriceReturn(initialAmount, prices[0], prices[|prices| - 1])
  {
    if asset.assetType == "stock" then
      match stocks(asset.id)
      case FetchFailed(e) => Err(e)
      case Fetched(closes) =>
        if closes == [] then Err(ValueErr("No data for stock " + asset.id))
        else PriceReturn(initialAmount, closes[0].1, closes[|closes| - 1].1)
    else if asset.assetType == "crypto" then
      match charts(asset.id)
      case ChartRequestFailed(message) => Err(Exc(RequestException, message))
      case Chart(None) => Err(Exc(KeyError, "'prices'"))
      case Chart(Some(prices)) =>
        if prices == [] then Err(ValueErr("No data for crypto " + asset.id))
        else PriceReturn(initialAmount, prices[0], prices[|prices| - 1])
    else
      Err(ValueErr("Invalid asset type: " + asset.assetType))
  }

  /** The outer handlers: `ValueError` and request errors pass, anything else is wrapped. */
  function Handle(e: Exc): (r: Exc)
    ensures e.kind == ValueError || e.kind == RequestException ==> r == e
    ensures !(e.kind == ValueError || e.kind == RequestException) ==>
              r == ValueErr("Error analyzing multiple assets: " + e.message)
  {
    if e.kind == ValueError || e.kind == RequestException then e
    else ValueErr("Error analyzing multiple assets: " + e.message)
  }

  /** The ids of `assets`, each once, in the order of their first appearance. */
  function FirstOccurrences(assets: seq<Asset>): (ids: seq<string>)
    ensures forall id :: id in ids <==> exists i :: 0 <= i < |assets| && assets[i].id == id
    ensures Distinct(ids)
  {
    if assets == [] then []
    else
      var init := assets[..|assets| - 1];
      var last := assets[|assets| - 1];
      assert forall i :: 0 <= i < |init| ==> init[i] == assets[i];
      var ids := FirstOccurrences(init);
      if last.id in ids then ids else ids + [last.id]
  }

  /** The `results` dict after the loop over `assets`, or an exception one of them raised;
      the ids come in the order of their first appearance. */
  function ResultsOf(assets: seq<Asset>, initialAmount: real, stocks: string -> Stock.PriceFetch,
                     charts: string -> ChartReply): (r: Result<Dict<AssetSummary>, Exc>)
    requires initialAmount != 0.0
    ensures r.Err? ==> exists i :: 0 <= i < |assets| && AssetReturn(assets[i], initialAmount, stocks, charts) == Err(r.error)
    ensures r.Ok? ==> IsDict(r.value) && Keys(r.value) == FirstOccurrences(assets)
  {
    if assets == [] then Ok([])
    else
      var init := assets[..|assets| - 1];
      var last := assets[|assets| - 1];
      assert forall i :: 0 <= i < |init| ==> init[i] == assets[i];
      match ResultsOf(init, initialAmount, stocks, charts)
      case Err(e) => Err(e)
      case Ok(results) =>
        match AssetReturn(last, initialAmount, stocks, charts)
        case Err(e) => Err(e)
        case Ok(pct) =>
          var summary := AssetSummary(last.assetType, pct);
          PutIsDict(results, last.id, summary);
          KeysAppend(results, last.id, summary);
          Ok(Put(results, last.id, summary))
  }

  /** The loop ends with a result exactly when every asset has a return. */
  lemma {:induction false} ResultsOutcome(assets: seq<Asset>, initialAmount: real,
                                          stocks: string -> Stock.PriceFetch, charts: string -> ChartReply)
    requires initialAmount != 0.0
    ensures ResultsOf(assets, initialAmount, stocks, charts).Ok?
        <==> forall i :: 0 <= i < |assets| ==> AssetReturn(assets[i], initialAmount, stocks, charts).Ok?
  {
    if assets != [] {
      var init := assets[..|assets| - 1];
      var last := assets[|assets| - 1];
      ResultsOutcome(init, initialAmount, stocks, charts);
      assert ResultsOf(assets, initialAmount, stocks, charts).Ok?
         <==> ResultsOf(init, initialAmount, stocks, charts).Ok?
              && AssetReturn(last, initialAmount, stocks, charts).Ok?;
      ForallSnoc(assets, init, a => AssetReturn(a, initialAmount, stocks, charts).Ok?);
    }
  }

  /** A property holds of every element exactly when it holds of all but the last and of the last. */
  lemma ForallSnoc<T>(s: seq<T>, init: seq<T>, ok: T -> bool)
    requires s != [] && init == s[..|s| - 1]
    ensures (forall i :: 0 <= i < |s| ==> ok(s[i]))
        <==> (forall i :: 0 <= i < |init| ==> ok(init[i])) && ok(s[|s| - 1])
  {
    assert forall i :: 0 <= i < |init| ==> init[i] == s[i];
  }

  /** Each entry of the results is the type and return of the LAST asset with that id. */
  lemma {:induction false} ResultsEntries(assets: seq<Asset>, initialAmount: real,
                                          stocks: string -> Stock.PriceFetch, charts: string -> ChartReply, j: nat)
    requires initialAmount != 0.0 && j < |assets|
    requires ResultsOf(assets, initialAmount, stocks, charts).Ok?
    requires forall k :: j < k < |assets| ==> assets[k].id != assets[j].id
    ensures AssetReturn(assets[j], initialAmount, stocks, charts).Ok?
    ensures Get(ResultsOf(assets, initialAmount, stocks, charts).value, assets[j].id)
         == Some(AssetSummary(assets[j].assetType, AssetReturn(assets[j], initialAmount, stocks, charts).value))
  {
    var init := assets[..|assets| - 1];
    var last := assets[|assets| - 1];
    var results := ResultsOf(init, initialAmount, stocks, charts).value;
    var summary := AssetSummary(last.assetType, AssetReturn(last, initialAmount, stocks, charts).value);
    assert ResultsOf(assets, initialAmount, stocks, charts).value == Put(results, last.id, summary);
    if j < |assets| - 1 {
      assert init[j] == assets[j];
      assert forall k :: j < k < |init| ==> init[k] == assets[k];
      ResultsEntries(init, initialAmount, stocks, charts, j);
    }
  }

  /** Once an asset raises, the loop's outcome is that exception. */
  lemma {:induction false} ResultsFailureSticks(assets: seq<Asset>, initialAmount: real,
                                                stocks: string -> Stock.PriceFetch, charts: string -> ChartReply, i: nat)
    requires initialAmount != 0.0 && i <= |assets|
    requires ResultsOf(assets[..i], initialAmount, stocks, charts).Err?
    ensures ResultsOf(assets, initialAmount, stocks, charts) == ResultsOf(assets[..i], initialAmount, stocks, charts)
    decreases |assets|
  {
    if i < |assets| {
      var init := assets[..|assets| - 1];
      assert init[..i] == assets[..i];
      ResultsFailureSticks(init, initialAmount, stocks, charts, i);
    } else {
      assert assets[..i] == assets;
    }
  }

  /** The position Python's `max(results, key=...)` picks: a largest return, the first one among equals. */
  function BestIndex(results: Dict<AssetSummary>): (k: nat)
    requires results != []
    ensures k < |results|
    ensures forall j :: 0 <= j < |results| ==> results[j].1.returnPercentage <= results[k].1.returnPercentage
    ensures forall j :: 0 <= j < k ==> results[j].1.returnPercentage < results[k].1.returnPercentage
    decreases |results|
  {
    if |results| == 1 then 0
    else
      var init := results[..|results| - 1];
      var k := BestIndex(init);
      assert forall j :: 0 <= j < |init| ==> init[j] == results[j];
      if results[|results| - 1].1.returnPercentage > results[k].1.returnPercentage then |results| - 1 else k
  }

  /** `analyze_multiple_assets` */
  /** The asset loop of `analyze_multiple_assets`: each asset's return is stored under its id,
      and the first asset without one ends the loop with its exception. */
  method CollectReturns(assets: seq<Asset>, initialAmount: real,
                        stocks: string -> Stock.PriceFetch, charts: string -> ChartReply)
    returns (r: Result<Dict<AssetSummary>, Exc>)
    requires initialAmount != 0.0
    ensures r == ResultsOf(assets, initialAmount, stocks, charts)
  {
    var results: Dict<AssetSummary> := [];
    var i := 0;
    while i < |assets|
      invariant 0 <= i <= |assets|
      invariant ResultsOf(assets[..i], initialAmount, stocks, charts) == Ok(results)
    {
      var asset := assets[i];
      var outcome := AssetReturn(asset, initialAmount, stocks, charts);
      ResultsStep(assets, initialAmount, stocks, charts, i);
      if outcome.Err? {
        ResultsFailureSticks(assets, initialAmount, stocks, charts, i + 1);
        return Err(outcome.error);
      }
      results := Put(results, asset.id, AssetSummary(asset.assetType, outcome.value));
      i := i + 1;
    }
    assert assets[..i] == assets;
    return Ok(results);
  }

  /** One pass of the asset loop: the next asset's error ends it, and its return is stored. */
  lemma ResultsStep(assets: seq<Asset>, initialAmount: real,
                    stocks: string -> Stock.PriceFetch, charts: string -> ChartReply, i: nat)
    requires initialAmount != 0.0 && i < |assets|
    requires ResultsOf(assets[..i], initialAmount, stocks, charts).Ok?
    ensures var outcome := AssetReturn(assets[i], initialAmount, stocks, charts);
            ResultsOf(assets[..i + 1], initialAmount, stocks, charts)
            == match outcome
               case Err(e) => Err(e)
               case Ok(pct) => Ok(Put(ResultsOf(assets[..i], initialAmount, stocks, charts).value, assets[i].id,
                                      AssetSummary(assets[i].assetType, pct)))
  {
    assert assets[..i + 1][..i] == assets[..i];
    assert assets[..i + 1][i] == assets[i];
  }

  method AnalyzeMultipleAssets(assets: seq<Asset>, initialAmount: real, days: int,
                               stocks: string -> Stock.PriceFetch, charts: string -> ChartReply)
    returns (r: Result<Analysis, Exc>)
    ensures initialAmount <= 0.0 ==> r == Err(ValueErr("Initial amount must be positive"))
    ensures initialAmount > 0.0 && days <= 0 ==> r == Err(ValueErr("Days must be positive"))
    ensures initialAmount > 0.0 && days > 0 ==>
              match ResultsOf(assets, initialAmount, stocks, charts)
              case Err(e) => r == Err(Handle(e))
              case Ok(results) => r == if results == [] then Err(ValueErr(EmptyMaxMessage))
                                       else Ok(Analysis(results, results[BestIndex(results)].0))
    ensures r.Err? ==> r.error.kind == ValueError || r.error.kind == RequestException
    ensures r.Ok? ==>
              var results := r.value.assets;
              && assets != [] && IsDict(results) && results != []
              && Get(results, r.value.bestAsset).Some?
              && forall j :: 0 <= j < |results| ==>
                   results[j].1.returnPercentage <= Get(results, r.value.bestAsset).value.returnPercentage
  {
    if initialAmount <= 0.0 {
      return Err(ValueErr("Initial amount must be positive"));
    }
    if days <= 0 {
      return Err(ValueErr("Days must be positive"));
    }
    var collected := CollectReturns(assets, initialAmount, stocks, charts);
    if collected.Err? {
      return Err(Handle(collected.error));
    }
    var results := collected.value;
    if results == [] {
      return Err(ValueErr(EmptyMaxMessage));
    }
    var k := BestIndex(results);
    GetEntry(results, k);
    assert Keys(results)[0] in Keys(results);
    return Ok(Analysis(results, results[k].0));
  }

  /** No asset at all ends in the `ValueError` of `max` on an empty dict. */
  lemma EmptyAssetsFail(initialAmount: real, stocks: string -> Stock.PriceFetch, charts: string -> ChartReply)
    requires initialAmount != 0.0
    ensures ResultsOf([], initialAmount, stocks, charts) == Ok([])
  {
  }
}
