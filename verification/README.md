# Financial Dashboard: a Dafny model of the request path and the tools

This project models the Financial Dashboard assistant:

- the financial tools a language-model agent may call: spending breakdown, stock prices, investment return, cryptocurrency prices, emergency fund, financial advice and multi-asset analysis;
- the Pydantic schemas that validate the tools' input;
- the BEA spending import;
- the agent wrapper;
- the two HTTP front ends, a BentoML service and a FastAPI application.

Every tool is a function of its validated input and of what its outside calls returned. Each call is a parameter: a yfinance history, a CoinGecko or CryptoCompare reply, the BEA reply, a CSV table, the data simulator's table, the outcome of saving the chart. A parameter holds either the data or the exception the call raised. A Python exception is an `Err(Exc(kind, str(e)))`, so every `raise` and every `except` clause of the code is a branch of the model.

The code has loops in four places: the two loops of `get_financial_advice`, the asset loop of `analyze_multiple_assets` and the row loop of `get_bea_spending_data`. Each is a Dafny `method` with a `while` loop. It is proved against a recursive specification function (`SectorTable`, `GroupSum`, `ResultsOf`, `KeptRows`), and lemmas state what those functions mean. Everything else is straight-line branching, so it is written as functions and lemmas about them.

Python dicts are association lists in insertion order with distinct keys (`Dicts.Dict`). pandas' `groupby(...).sum()` and the loop `d[k] = d.get(k, 0) + v` are one left fold, `Dicts.GroupSum`. Its lemmas say:

- one entry per category;
- each entry is the category's total;
- the grand total is kept;
- a dict is its own grouping;
- grouping twice is grouping once.

`query_financial_agent` makes one `AgentExecutor.invoke` call and classifies its reply or exception; there is no retry loop and no attempt counter. One executor run is a value (`Agent.AgentRun`), and the tool-calling loop inside LangChain is not modelled.

Modules:

| file | module | models |
|---|---|---|
| common.dfy | Common | results and exceptions, `str.strip`, `str.upper`, the `in` substring test |
| dicts.dfy | Dicts | dicts and the group-by-sum |
| calendar.dfy | Calendar | `datetime.strptime(value, "%Y-%m-%d")` and `timestamp()` at UTC midnight |
| models.py → models.dfy | Models | the five Pydantic schemas, and pydantic's check of a class body |
| frames.dfy | Frames | a loaded spending table, its breakdown and its pie chart |
| spending.dfy | Spending | tools/spending_tools.py |
| stock.dfy | Stock | tools/stock_tools.py |
| investment.dfy | Investment | tools/investment_tools.py |
| crypto.dfy | Crypto | tools/crypto_tools.py |
| emergency_fund.dfy | EmergencyFund | tools/emergency_fund_tools.py |
| bea.dfy | Bea | api/bea_api.py |
| dashboard.dfy | Dashboard | tools/financial_dashboard_tools.py |
| agent.dfy | Agent | llm/query_llm.py |
| service.dfy | Service | api/service.py |
| api.dfy | Api | api/financial_api.py |

## Model

| member | source | states |
|---|---|---|
| Common.CatchOsError | tools/spending_tools.py:91-94 | `except OSError`: an `OSError` becomes a `ValueError` with the handler's prefix, and every other exception escapes unchanged |
| Common.StripEmptyIff | api/service.py:47-48 | the stripped prompt is empty exactly when every character is whitespace |
| Common.StripIdempotent | api/service.py:47 | stripping an already stripped prompt changes nothing |
| Common.Upper | tools/crypto_tools.py:87-94 | `upper()` keeps the length and upper-cases each ASCII letter in place, leaving every other character |
| Common.StripLeft | api/service.py:47 | `lstrip()` removes exactly the leading whitespace: what it drops is whitespace and what it keeps does not start with whitespace |
| Common.StripRight | api/service.py:47 | `rstrip()` removes exactly the trailing whitespace |
| Common.Repr | api/bea_api.py:87 | `repr` of text without escapes: the text between two equal quotes, double exactly when it holds a single quote and no double quote |
| Common.Strip | api/service.py:47 | `strip()` gives the infix of the text that starts after the leading whitespace, everything before and after it is whitespace, and it neither starts nor ends with whitespace |
| Dicts.Get | tools/financial_dashboard_tools.py:303 | a lookup finds a value exactly when the key is present, and the pair is in the dict |
| Dicts.Put | tools/financial_dashboard_tools.py:297-303 | assigning an existing key keeps the keys in place; a new key is appended; the key then maps to the value |
| Dicts.PutIsDict | tools/financial_dashboard_tools.py:303 | an assignment keeps the keys distinct |
| Dicts.PutSum | tools/financial_dashboard_tools.py:303 | adding `v` to a key's entry (0 when absent) adds `v` to the sum of the values |
| Dicts.GroupSumIsDict | tools/spending_tools.py:65 | the group-by-sum has one entry per category |
| Dicts.GroupSumKeys | tools/spending_tools.py:65 | a category is a key of the group-by-sum exactly when some row carries it |
| Dicts.GroupSumLookup | tools/spending_tools.py:65 | each category's entry is the total of its rows' amounts; an absent category has none |
| Dicts.GroupSumTotal | tools/spending_tools.py:65-66 | the entries of the group-by-sum add up to the total of all rows |
| Dicts.GroupSumOfDict | tools/spending_tools.py:48-51 | a table whose categories are distinct is its own group-by-sum |
| Dicts.GroupSumIdempotent | tools/financial_dashboard_tools.py:71-73 | grouping an already grouped table changes nothing |
| Calendar.DaysInMonth | utils/models.py:136 | month lengths are 28 to 31, and February has 29 days exactly in leap years |
| Calendar.Strptime | utils/models.py:136 | a parsed date is a valid calendar date |
| Calendar.NoMatchQuoting | tools/crypto_tools.py:41 | text that does not fit `%Y-%m-%d` fails with "time data ", `repr` of the text, and " does not match format '%Y-%m-%d'" |
| Calendar.NoMatchQuotes | tools/crypto_tools.py:41 | that `repr` puts "yesterday" in single quotes and "2024-01-0'", which holds a single quote, in double quotes |
| Calendar.StrptimeFormatDate | utils/models.py:136 | every valid date written as YYYY-MM-DD parses back to itself |
| Calendar.LeapDayAccepted | utils/models.py:136 | 2024-02-29 parses |
| Calendar.LeapDayRejected | utils/models.py:136 | 2023-02-29 fails with "day is out of range for month" |
| Calendar.LooseFieldsAccepted | utils/models.py:136 | one-digit months and days, and a space-padded day, are accepted as `%m` and `%d` accept them |
| Calendar.OutOfRangeFieldsRejected | utils/models.py:136 | day 32 and month 13 are rejected |
| Calendar.EpochSeconds | tools/crypto_tools.py:41-42 | the timestamp of a UTC midnight is a whole number of days, and 1970-01-01 is 0 |
| Calendar.DaysBeforeYearIsCount | tools/crypto_tools.py:41-42 | the closed-form day count before a year equals the year-by-year count |
| Calendar.DaysBeforeMonthIsCount | tools/crypto_tools.py:41-42 | the table of days before a month equals the month-by-month count |
| Calendar.YearIsTwelveMonths | tools/crypto_tools.py:41-42 | twelve months make up the year's length |
| Calendar.NextDayAddsOneDay | tools/crypto_tools.py:41-42 | the next calendar day's timestamp is 86400 seconds later |
| Calendar.EpochSecondsExample | tools/crypto_tools.py:41-42 | 2024-01-01 is 1704067200 and 2023-02-28 is 1677542400 |
| Models.FieldErrors | utils/models.py:12-44 | a field reports at most one error, and none exactly when its constraint and its validator pass |
| Models.ValidateNonNegative | utils/models.py:37-44 | a value is accepted exactly when it is not negative, and unchanged |
| Models.ValidateEmergencyFund | utils/models.py:9-44 | accepted exactly when expenses > 0, obligations ≥ 0, months ≥ 1 and savings ≥ 0 after defaults; each violated field is reported |
| Models.EmergencyFundDefaults | utils/models.py:18-35 | the defaults are no obligations, six months and no savings |
| Models.ValidateStockPrice | utils/models.py:47-63 | accepted exactly when the symbol is non-empty; the dates are free text |
| Models.InspectNamespace | utils/models.py:66-77 | creating a `BaseModel` class fails exactly when some data attribute of its body has no annotation, and names the first such attribute with its value; otherwise every annotated attribute is a field |
| Models.FirstUnannotated | utils/models.py:69 | the position of the first attribute without an annotation: all before it are annotated |
| Models.UserError | utils/models.py:69 | the refusal is raised as a `PydanticUserError` |
| Models.InvestmentReturnClassAsWritten | utils/models.py:69 | as written, the bare `MIN_ANNUAL_RETURN = -100` makes creating `InvestmentReturnInput` raise `PydanticUserError`, naming `MIN_ANNUAL_RETURN` and `-100` |
| Models.InvestmentReturnClassIntended | utils/models.py:66-77 | intended: with `MIN_ANNUAL_RETURN: ClassVar[int] = -100` the class is created with exactly the fields initial_amount, years and annual_return |
| Models.ValidatePositiveInitialAmount | utils/models.py:78-85 | accepted exactly when positive, unchanged; otherwise "Initial amount must be positive." |
| Models.ValidatePositiveYears | utils/models.py:87-94 | accepted exactly when positive, unchanged; otherwise "Years must be positive." |
| Models.ValidateReasonableAnnualReturn | utils/models.py:96-103 | accepted exactly when at least -100, unchanged; otherwise "Annual return cannot be less than -100%." |
| Models.ValidateInvestmentReturn | utils/models.py:66-103 | intended, with `MIN_ANNUAL_RETURN` a class constant: accepted exactly when the amount and the years are positive and the return is at least -100% |
| Models.AnnualReturnBoundary | utils/models.py:69-103 | intended: -100% is allowed, anything below is not, and there is no upper bound |
| Models.ValidateDateFormat | utils/models.py:130-141 | an absent or empty date passes; any other date passes exactly when `strptime` accepts it, else the documented message |
| Models.ValidateCrypto | utils/models.py:106-141 | accepted exactly when id and currency are non-empty (currency defaults to "usd") and both dates pass |
| Models.CryptoLeapDayAccepted | utils/models.py:130-141 | the date check accepts 2024-02-29 |
| Models.CryptoLeapDayRejected | utils/models.py:130-141 | the date check rejects 2023-02-29 |
| Models.CryptoBlankDates | utils/models.py:134 | an empty or missing date passes unchecked |
| Models.CryptoDefaultCurrency | utils/models.py:115-120 | a missing currency becomes "usd" |
| Models.ValidateSpendingBreakdown | utils/models.py:160-191 | intended: accepted exactly when a non-empty path or a non-empty dict is given; otherwise both fields report the message |
| Models.ValidateSpendingBreakdownAsWritten | utils/models.py:160-191 | as written under pydantic 2: accepted exactly when no passed field is falsy, an omitted field staying `None` unchecked; a falsy passed field raises `AttributeError` |
| Models.AsWrittenAcceptsNoSource | utils/models.py:160-191 | as written, `SpendingBreakdownInput()` is accepted, which the documented rule rejects |
| Models.AsWrittenRejectsExplicitNone | utils/models.py:184-187 | as written, `data_source=None` with a non-empty dict raises `AttributeError`, which the documented rule accepts |
| Frames.Summarize | tools/spending_tools.py:64-66 | one entry per category holding its total; the total spent is the sum of the entries and of the rows |
| Frames.Render | tools/spending_tools.py:68-81 | the pie chart: a negative wedge raises `plt.pie`'s `ValueError`, otherwise a failed `savefig` becomes a `ValueError` with the handler's prefix; a breakdown that is drawn and saved is returned unchanged, and an earlier failure passes through |
| Spending.CheckAndSummarize | tools/spending_tools.py:53-66 | missing columns, then a non-numeric amount, are the two rejections; otherwise the breakdown of the rows |
| Spending.DictFrame | tools/spending_tools.py:46-51 | the table built from a dict has both columns, numeric amounts and the dict's pairs as rows |
| Spending.GetSpendingBreakdown | tools/spending_tools.py:26-94 | a path is read first, else the dict; a read's `OSError` becomes "Error reading the CSV file: ..." and any other read exception (an empty or malformed file) escapes unchanged; without either source the unassigned table raises; the breakdown is then drawn, and a failed save gets the same prefix |
| Spending.DataSourceTakesPrecedence | tools/spending_tools.py:42-51 | with a path the dict is ignored |
| Spending.DirectInputBreakdown | tools/spending_tools.py:46-81 | a dict of non-negative amounts comes back as its own breakdown with its sum as the total and source "direct_input", once the chart is saved |
| Spending.NegativeAmountRejected | tools/spending_tools.py:46-75 | a dict with a negative amount, such as a refund, fails with `plt.pie`'s `ValueError` whatever happens to the file |
| Spending.ValidatedInputHasTable | tools/spending_tools.py:42-55 | intended: input the documented rule accepts never reaches the unassigned-table error; it fails only with a `ValueError` or the read's own exception |
| Spending.AsWrittenNoSourceUnbound | tools/spending_tools.py:42-55 | as written, the accepted `SpendingBreakdownInput()` makes the tool raise `UnboundLocalError` |
| Stock.ValidateData | tools/stock_tools.py:24-54 | raises exactly on empty data, with the range message when both dates are given and the current-data message otherwise |
| Stock.Reraise | tools/stock_tools.py:92-98 | a `ValueError` passes unchanged; anything else becomes a `ValueError` naming the symbol |
| Stock.GetStockPrices | tools/stock_tools.py:57-98 | a result exactly when the one-day history is non-empty and, with both dates, the range is too; the current price is its last close and the range's closes are added exactly with both dates; a failed or empty fetch gives its error; every failure is a `ValueError` |
| Stock.HistoryOnlyWithBothDates | tools/stock_tools.py:77-83 | without both dates the dated history is never consulted |
| Stock.EmptyHistoryNamesRange | tools/stock_tools.py:80-82 | an empty range history fails naming the symbol and both dates |
| Investment.CalculateInvestmentReturnSimple | tools/investment_tools.py:52-81 | final = initial × (1 + r/100)^years; profit = final − initial; the percentage is profit/initial × 100, or 0 when the amount is not positive |
| Investment.CalculateFromInput | tools/investment_tools.py:54-56 | for a whole number of years the calculator's result on the schema's three fields, echoing them; nothing for fractional years |
| Investment.ZeroReturnKeepsValue | tools/investment_tools.py:59-66 | a 0% return keeps the value and gives no profit |
| Investment.LossBounded | tools/investment_tools.py:59-63 | at or above the schema's -100% floor the final value is never negative |
| Investment.ReturnSignDecidesProfit | tools/investment_tools.py:59-63 | over at least one year a positive return is a gain and a negative one a loss |
| Investment.PercentageIsGrowth | tools/investment_tools.py:62-66 | the total percentage is the growth of the yearly factor over the years, whatever the amount |
| Investment.InvestmentExample | tools/investment_tools.py:59-66 | 10000 for two years at 10% ends at 12100 with a 21% return |
| EmergencyFund.CalculateEmergencyFund | tools/emergency_fund_tools.py:21-75 | target = (expenses + obligations) × months; progress is savings/target in percent (0 for a non-positive target); the remainder is what is still missing, never negative |
| EmergencyFund.ValidatedTargetPositive | tools/emergency_fund_tools.py:43-49 | for schema-accepted input the target is positive, so the zero-progress branch is never taken |
| EmergencyFund.MoreSavingsMoreProgress | tools/emergency_fund_tools.py:46-52 | saving more never lowers the progress and never raises the remainder |
| EmergencyFund.EmergencyFundExample | tools/emergency_fund_tools.py:39-71 | 2000 a month for six months with 3000 saved: target 12000, 25%, 9000 missing |
| Crypto.GetHistoricalPrice | tools/crypto_tools.py:24-62 | a bad date raises the parse error; a request failure and a missing id or currency give their messages; otherwise the price in the upper-cased currency |
| Crypto.PriceIncreasePercentage | tools/crypto_tools.py:118-120 | the change in percent of a positive start price, 0 otherwise |
| Crypto.PriceIncreaseSign | tools/crypto_tools.py:118-120 | from a positive start the percentage is positive exactly when the price rose and 0 exactly when unchanged |
| Crypto.KeySetsDisjoint | tools/crypto_tools.py:102-131 | the range entries never overwrite the base entries |
| Crypto.BaseEntries | tools/crypto_tools.py:102-106 | the base dict holds the id, the currency as given and the current price |
| Crypto.RangeEntries | tools/crypto_tools.py:123-131 | the added entries hold both dates, both prices and the percentage between them |
| Crypto.GetCryptoData | tools/crypto_tools.py:65-144 | a result exactly when the current price is there and, with both dates, both historical prices; request failure and missing currency give their messages; the result always has the base entries; with both dates the range entries are added, else the first failing price lookup's error |
| Crypto.ValidatedDatesParse | tools/crypto_tools.py:109-115 | for schema-accepted input both dates parse, so the lookups never fail on the date |
| Bea.ProcessingError | api/bea_api.py:121-124 | a processing failure becomes a `ValueError` with the "Error processing BEA data: " prefix |
| Bea.CategoryMapShape | api/bea_api.py:73-80 | the map's keys are the six series codes and its values the six category names |
| Bea.RemoveCommas | api/bea_api.py:87 | the result has no comma, is no longer, and comma-free text is unchanged |
| Bea.RemoveCommasKeepsOthers | api/bea_api.py:87 | every other character is kept as often as it occurs |
| Bea.RemoveCommasAppend | api/bea_api.py:87 | removing commas piece by piece equals removing them from the whole, so the order of the rest is kept |
| Bea.RemoveGroupingComma | api/bea_api.py:87 | a separator between two comma-free pieces is dropped and the pieces joined |
| Bea.RemoveCommasExample | api/bea_api.py:87 | "1,234.5" becomes "1234.5" |
| Bea.ParseDecimal | api/bea_api.py:87 | a parsed value has the sign its text shows |
| Bea.Magnitude | api/bea_api.py:87 | the value of `whole.fraction` is at least its whole part |
| Bea.FractionScaled | api/bea_api.py:87 | the digits after the point are worth the number they spell over ten to their count |
| Bea.DigitsValueAppend | api/bea_api.py:87 | the digits of `a` then `b` spell `a`'s number shifted by `b`'s length plus `b`'s number |
| Bea.MagnitudeSpelled | api/bea_api.py:87 | the value of `whole.fraction` is the number its digits spell without the point, over ten to the number of fraction digits |
| Bea.ParseUnsigned | api/bea_api.py:87 | unsigned text parses to a value that is not negative |
| Bea.ParseDecimalValue | api/bea_api.py:87 | every `[sign]digits.digits` parses to the value it spells, negated for a minus sign |
| Bea.ParseIntegerValue | api/bea_api.py:87 | every `[sign]digits` parses to the whole number it spells, negated for a minus sign |
| Bea.FloatErrorMessage | api/bea_api.py:87 | `float()`'s error text: "could not convert string to float: " then the text between two equal quotes |
| Bea.DigitsValueExample | api/bea_api.py:87 | "1234" spells 1234 |
| Bea.ParsePlainExample | api/bea_api.py:87 | "1234.5" parses to 1234.5 |
| Bea.ParseDecimalExample | api/bea_api.py:87 | "1,234.5" is read as 1234.5 once the commas are gone |
| Bea.ParseRejectsComma | api/bea_api.py:87 | text that still holds a comma is not a number |
| Bea.ParseRejectsMarker | api/bea_api.py:87 | a footnote marker such as "(NA)" is not a number |
| Bea.KeptRows | api/bea_api.py:82-94 | a failure exactly when some mapped item's value does not parse; otherwise one row per mapped item, in order, each that item's category name, parsed amount and quarter |
| Bea.MappedItems | api/bea_api.py:83-85 | the items whose series code the map knows, and only those |
| Bea.RowOf | api/bea_api.py:88-94 | the row of a mapped item carries a BEA category name |
| Bea.KeptRowsEmpty | api/bea_api.py:82-96 | nothing is kept exactly when no item has a mapped series code |
| Bea.KeptRowsFailureSticks | api/bea_api.py:83-87 | once an item fails to parse, the loop's outcome is that failure |
| Bea.CategoryAmounts | api/bea_api.py:105 | the frame's categories are the kept rows' categories, in order |
| Bea.CategoryAmountsAppend | api/bea_api.py:88-105 | appending a row appends its (category, amount) pair |
| Bea.KeptRowsCategoryTotal | api/bea_api.py:82-105 | each category's amount in the kept rows is the total of the parsed values of the items whose series code maps to it |
| Bea.KeptRowsCategories | api/bea_api.py:82-105 | a category appears exactly when some item's series code maps to it |
| Bea.BeaCategorySums | api/bea_api.py:82-108 | the aggregated frame gives each mapped category that total and has no other category |
| Bea.GroupedCategories | api/bea_api.py:104-108 | the grouping of a non-empty row list is a non-empty dict over BEA category names |
| Bea.KeepMappedRows | api/bea_api.py:82-94 | the loop computes exactly `KeptRows` of the items |
| Bea.GetBeaSpendingData | api/bea_api.py:28-127 | request failure, a missing key, empty data, a value that does not parse and no mapped row each give their `ValueError`; otherwise a non-empty dict over BEA category names whose entry for each category is the total of the items mapped to it |
| Bea.BeaTotal | api/bea_api.py:104-108 | summing across quarters keeps the total of all kept rows |
| Dashboard.ScaleDown | tools/financial_dashboard_tools.py:68 | every amount divided by 1000, categories unchanged |
| Dashboard.ScaleDownSum | tools/financial_dashboard_tools.py:68 | the total is divided by 1000 too |
| Dashboard.RegroupError | tools/financial_dashboard_tools.py:71-73 | pre-grouping a file without the columns raises a `KeyError` |
| Dashboard.Breakdown | tools/financial_dashboard_tools.py:79-88 | missing columns give the column message; text amounts in a non-empty table make `sum` raise the `TypeError`; otherwise the breakdown of the rows |
| Dashboard.LoadBreakdown | tools/financial_dashboard_tools.py:61-88 | precedence path, BEA, bundled file, simulator; an `OSError` of a read or of the simulator's write becomes "Error generating spending breakdown: ...", and any other read exception escapes unchanged; text amounts raise the `TypeError`; the total is the sum of the breakdown |
| Dashboard.GetSpendingBreakdown | tools/financial_dashboard_tools.py:41-116 | the breakdown as `LoadBreakdown` states it, read failures included, then the chart: a negative wedge raises `plt.pie`'s `ValueError`, a failed save gets "Error generating spending breakdown: ..."; the total is the sum of the breakdown |
| Dashboard.GroupSumEmpty | tools/financial_dashboard_tools.py:71-73 | grouping leaves a table empty exactly when it was empty |
| Dashboard.BeaBreakdownInThousands | tools/financial_dashboard_tools.py:66-104 | the BEA breakdown of non-negative amounts is the BEA dict in thousands, and so is its total, once the chart is saved |
| Dashboard.LocalCsvRegroupHarmless | tools/financial_dashboard_tools.py:70-88 | for numeric amounts, grouping the bundled file before the breakdown's own grouping makes no difference |
| Dashboard.GetStockPrices | tools/financial_dashboard_tools.py:120-165 | a result exactly when the one-day history is non-empty and, with both dates, the range is too; failed and empty fetches give their errors, every failure is a `ValueError`; the symbol, the last close and, with both dates, the range's closes are returned |
| Dashboard.StockToolsAgree | tools/financial_dashboard_tools.py:120-165 | on the same histories this tool and the stock tool return the same result |
| Dashboard.ReturnPercentage | tools/financial_dashboard_tools.py:203-206 | the return is (end/start − 1) × 100, independent of the amount invested |
| Dashboard.CalculateInvestmentReturn | tools/financial_dashboard_tools.py:169-228 | a result exactly when the amount is positive and the history is non-empty with a non-zero start; a non-positive amount, an empty history, a failed fetch and a zero start give their `ValueError`s; shares × start = amount, final = shares × end, and the percentage is that return |
| Dashboard.GetCryptoData | tools/financial_dashboard_tools.py:232-270 | an entry is returned exactly when the reply is a non-empty list whose first element has both 'current_price' and 'price_change_percentage_24h'; the request failure, the empty list and each missing key give their messages |
| Dashboard.MaxOf | tools/financial_dashboard_tools.py:306-307 | the maximum is an element and bounds every element |
| Dashboard.SectorOf | tools/financial_dashboard_tools.py:297 | the sector the ticker reports, or "Unknown" |
| Dashboard.Suggestions | tools/financial_dashboard_tools.py:308-329 | each rule fires exactly when its threshold is crossed, the messages come in rule order without repeats and carry the maxima; the well-diversified message appears, alone, exactly when none fires |
| Dashboard.SectorTableStep | tools/financial_dashboard_tools.py:294-297 | one pass of the first loop appends the holding and its sector |
| Dashboard.CollectSectors | tools/financial_dashboard_tools.py:293-297 | the loop yields each symbol with its sector ("Unknown" when absent), in portfolio order |
| Dashboard.SectorTable | tools/financial_dashboard_tools.py:293-297 | the `sectors` dict has the portfolio's symbols as keys, in order |
| Dashboard.SectorRows | tools/financial_dashboard_tools.py:301-303 | the (sector, weight) rows carry the portfolio's weights in order |
| Dashboard.SectorWeightStep | tools/financial_dashboard_tools.py:301-303 | one pass of the second loop adds the holding's weight under its sector |
| Dashboard.SumSectorWeights | tools/financial_dashboard_tools.py:300-303 | the loop yields the group-by-sum of the (sector, weight) rows |
| Dashboard.SectorWeightsTotal | tools/financial_dashboard_tools.py:300-303 | the sector weights are a dict adding up to the portfolio's weight, empty only for an empty portfolio |
| Dashboard.GetFinancialAdvice | tools/financial_dashboard_tools.py:274-336 | rejected exactly when the weights do not sum to 1 ± 0.01; otherwise the sector weights and the suggestions computed from the two maxima |
| Dashboard.SectorWeightsAreSums | tools/financial_dashboard_tools.py:300-303 | each sector's weight is the total of its holdings; sectors no holding has are absent |
| Dashboard.PriceReturn | tools/financial_dashboard_tools.py:386-388 | the return (end/start − 1) × 100 from first to last price, or the division error exactly for a zero first price |
| Dashboard.AssetReturn | tools/financial_dashboard_tools.py:366-388 | an unknown type, a failed or empty history, a failed request and an empty or missing price list each raise their error; otherwise the return from the first to the last price |
| Dashboard.Handle | tools/financial_dashboard_tools.py:397-403 | `ValueError` and request errors pass; anything else is wrapped in a `ValueError` |
| Dashboard.ResultsOf | tools/financial_dashboard_tools.py:364-392 | a failure is what some asset raised; a results dict has the asset ids as keys, each once, in order of first appearance |
| Dashboard.FirstOccurrences | tools/financial_dashboard_tools.py:389 | the ids, each once, exactly those of the assets |
| Dashboard.ResultsOutcome | tools/financial_dashboard_tools.py:365-392 | the loop completes exactly when every asset has a return |
| Dashboard.ResultsEntries | tools/financial_dashboard_tools.py:389-392 | each id's entry is the type and return of the last asset with that id |
| Dashboard.ResultsFailureSticks | tools/financial_dashboard_tools.py:365-392 | once an asset raises, the loop's outcome is that exception |
| Dashboard.BestIndex | tools/financial_dashboard_tools.py:394 | the chosen entry has the largest return and is the first of equals |
| Dashboard.CollectReturns | tools/financial_dashboard_tools.py:365-393 | the asset loop is proved equal to `ResultsOf`: each return stored under its id, the first failing asset's exception ending the loop |
| Dashboard.AnalyzeMultipleAssets | tools/financial_dashboard_tools.py:340-403 | the amount and day checks come first; the loop computes `ResultsOf`; the best asset has the largest return; failures are `ValueError` or request errors |
| Dashboard.EmptyAssetsFail | tools/financial_dashboard_tools.py:364-394 | no assets leave the results dict empty, so `max` raises |
| Agent.RegistryIsInjective | llm/query_llm.py:35-75 | five tools, pairwise distinct names and functions |
| Agent.ListingNamesEach | llm/query_llm.py:89-94 | the prompt's tool list names every tool it is built from |
| Agent.ToolsInPrompt | llm/query_llm.py:78-99 | every registered tool is announced in the system prompt |
| Agent.QueryFinancialAgent | llm/query_llm.py:122-144 | an output is returned verbatim, a missing one gives the format message, the four handled classes give "Error processing query: ...", anything else is re-raised |
| Agent.AgentRaisesOnlyUnhandled | llm/query_llm.py:136-142 | only an exception outside the four handled classes escapes, unchanged |
| Agent.AgentTextMarker | llm/query_llm.py:127-144 | the text carries the error marker exactly when a handled exception occurred or the output itself carries it |
| Service.ErrorReply | api/service.py:50 | the error dict has `status` "error" and the message as `response` |
| Service.SuccessReply | api/service.py:60 | the success dict has `status` "success", the text as `response` and `details` None |
| Service.QueryAssistant | api/service.py:38-64 | every path returns a dict with status "success" or "error"; blank prompt, agent exception, marker text and plain text each get their reply |
| Service.SuccessIff | api/service.py:47-60 | success exactly when the prompt is not blank and the agent's text lacks the marker; the text is passed on unchanged |
| Service.BlankPromptSkipsAgent | api/service.py:47-50 | a blank prompt is answered without the agent |
| Service.StrippedPromptSameReply | api/service.py:47-54 | surrounding whitespace never changes the reply |
| Service.SameStripSameReply | api/service.py:47-54 | two prompts with the same stripped text get the same reply |
| Service.MissingOutputIsSuccess | api/service.py:55-60 | a reply without an output is reported as success with the format message |
| Service.AgentExceptionIsError | api/service.py:53-64 | a handled agent exception is an error with the agent's text; any other with "Failed to process query: ..." |
| Service.HealthCheck | api/service.py:31-35 | the health dict says "healthy" |
| Api.QueryAssistantAsWritten | api/financial_api.py:59-97 | 400 for a blank prompt; the code is 400 or 500; a 200 carries the agent's text and "success" |
| Api.QueryAssistant | api/financial_api.py:59-97 | the same endpoint with the agent's error text answered as the 500 raised for it |
| Api.StatusCodes | api/financial_api.py:76-97 | 400 exactly for blank prompts; 200 exactly for agent text without the marker |
| Api.AgreesWithService | api/financial_api.py:76-97 | a 200 is the service's success with the same text; an HTTP error is its error reply with the detail as response |
| Api.AsWrittenDiffersOnlyOnMarker | api/financial_api.py:84-97 | the code as written and the intended endpoint differ exactly on agent text carrying the marker |
| Api.AsWrittenDoubleWraps | api/financial_api.py:84-97 | as written, such text arrives as "Failed to process query: 500: " followed by the text |
| Api.AgentErrorTextPassedThrough | api/financial_api.py:84-86 | intended: such text arrives unchanged as the 500's detail |
| Api.HandledErrorExample | api/financial_api.py:84-97 | a `ValueError("bad input")` in the agent: both details spelled out |
| Api.HealthCheck | api/financial_api.py:52-56 | the same fixed dict as the service's health check |
| Api.Decimal | api/financial_api.py:95 | `str(n)` of a status code: digits that spell `n`, without a leading zero |
| Api.ExceptionText | api/financial_api.py:95 | `str(e)` of an `HTTPException`: the code, ": ", then the detail, so the first colon ends the code |

## Left out

- Network and file access: yfinance, `requests` to CoinGecko, CryptoCompare and BEA, `pd.read_csv`, the data simulator and `DATA_PATH.exists()`. Each is a parameter holding the data or the exception, except `DATA_PATH.exists()`, which is the presence of the bundled file's reading.
- The data simulator's randomness: its table is a parameter. Only its `OSError` from writing the CSV (data/data_simulator.py:88) is modelled.
- Chart rendering apart from its two failures: the figure, title and autopct labels are not modelled. `plt.pie`'s refusal of a negative wedge and a failed `plt.savefig` are modelled (`Frames.Render`). Other `plt.pie` failures are not, such as an all-zero or empty breakdown.
- Logging, the configuration files and the BEA API key. They have no effect on the returned values.
- The LangChain executor and the language model (`create_financial_agent`): one run is the value `Agent.AgentRun`. Because each call builds a fresh executor and nothing else is shared, the functions of the model carry no state between queries.
- The `import` of `calculate_investment_return` from tools/investment_tools.py at llm/query_llm.py:16 is not modelled. That module defines only `calculate_investment_return_simple`. The registry is modelled by name and bound function only.
- Models.ValidateInvestmentReturn and Models.AnnualReturnBoundary: they describe `InvestmentReturnInput` as intended, with `MIN_ANNUAL_RETURN` a class constant. As written the class cannot be created (see "## Findings").
- Models.InspectNamespace: only the data attributes of a class body are listed; methods, validators, private (`_`-prefixed) names and `model_config`, which pydantic handles apart, are not. Its contract says every annotated attribute is a field and there are no more fields than attributes, not that every field is an annotated attribute. The reverse direction is pinned only for `InvestmentReturnInput`, by Models.InvestmentReturnClassIntended.
- Models.UserError: its contract states the exception class only; the text (the assignment, then the advice to use `ClassVar`) is spelled out in its body but proved by no lemma. The "For further information visit …" line that pydantic appends, which names the installed version, is not modelled.
- Pydantic's type coercion and the exact `ValidationError` text. A rejection is the list of fields that failed with their rule.
- Models.ValidateSpendingBreakdownAsWritten: only the class of the `AttributeError` is stated; its text names pydantic-core's `ValidationInfo` type, whose printed name the model does not pin down.
- Spending.GetSpendingBreakdown and Dashboard.LoadBreakdown: the text of a `pd.read_csv` exception is taken as given. Rows with a missing category or amount, which `groupby(...).sum()` drops or skips, are not modelled; every row of a table has both.
- `round(x, 2)` in the emergency fund, investment and crypto results. The model keeps the exact value.
- Floating point in general: amounts are `real`.
- Investment.CalculateInvestmentReturnSimple: `years` is a whole number, because `**` with a fractional exponent has no exact counterpart on reals.
- Investment.CalculateFromInput: for the same reason it gives no result for a fractional number of years, which the schema accepts and the source computes.
- Common.Upper: only ASCII letters are upper-cased. Python's `str.upper` also maps other letters ('é' to 'É') and can lengthen the text ('ß' to 'SS').
- Calendar.Strptime: only ASCII digits, and the four-digit year only. CPython's `%Y` also accepts other Unicode decimal digits.
- Bea.ParseDecimal: reads plain decimal text only (sign, digits, optional fraction). It rejects exponents, `inf`, `nan`, underscores and surrounding blanks, all of which `float()` accepts.
- Common.Repr, Bea.FloatErrorMessage and Calendar.Strptime: the quoting of text with backslashes or unprintable characters is not modelled.
- Bea.GetBeaSpendingData: each item has its three fields. A missing `SeriesCode`, `DataValue` or `TimePeriod` (a `KeyError`) and a `Data` value that is not a list of dicts are not modelled.
- Dicts.GroupSum keeps keys in first-appearance order; pandas' `groupby` sorts them. The contents are the same.
- Dashboard.CalculateInvestmentReturn: a zero start price is modelled as Python's `ZeroDivisionError`, wrapped by the handler. With numpy's `float64` closes the division gives `inf` instead.
- Dashboard.AssetReturn and Dashboard.AnalyzeMultipleAssets: a zero first close of a stock is modelled as Python's `ZeroDivisionError`, for the same reason; with the `float64` close numpy gives `inf` (or `nan`) and the loop goes on. A zero first crypto price is a Python number, so its `ZeroDivisionError` is what the code raises.
- Dashboard.AnalyzeMultipleAssets: every asset has a `type` and an `id`. The `KeyError` of a missing key, wrapped as "Error analyzing multiple assets: ...", is not modelled.
- Dashboard.GetFinancialAdvice: the sector lookup cannot fail. An exception from `Ticker.info` would be wrapped as "Error generating financial advice: ..."; that is not modelled.
- Dashboard.GetFinancialAdvice: the percentage texts of the two weight suggestions are not modelled. A suggestion carries the weight it reports instead.
- Dashboard.GetFinancialAdvice: the total in the error message is rendered by a parameter `repr`, not by Python's float formatting.
- Stock.GetStockPrices: the historical closes are an ordered list of (timestamp, close) pairs instead of a dict keyed by pandas timestamps.
- Api.QueryAssistantAsWritten: the text of the re-raised exception is taken to be Starlette's "status: detail" form.

## Findings

| source | as written | input that shows it | evidently intended | confidence | as-written member | corrected member |
|---|---|---|---|---|---|---|
| utils/models.py:6, utils/models.py:160-191 | (reached only once the row for utils/models.py:69 is fixed, since until then the module does not import) `validate_inputs` takes a second argument `values` and calls `values.get`, as a pydantic 1 validator would, but it is registered with pydantic 2's `field_validator`, which passes a `ValidationInfo` and validates only passed fields: a falsy passed field raises `AttributeError`, and omitted fields are never checked | `SpendingBreakdownInput()` is accepted and the tool then raises `UnboundLocalError`; `SpendingBreakdownInput(data_source=None, spending_data={"Food": 5.0})` raises `AttributeError` | a `ValidationError` with "Either 'data_source' or 'spending_data' must be provided." exactly when neither source is given | not executed | Models.ValidateSpendingBreakdownAsWritten, shown by Models.AsWrittenAcceptsNoSource, Models.AsWrittenRejectsExplicitNone and Spending.AsWrittenNoSourceUnbound | Models.ValidateSpendingBreakdown, proved by Spending.ValidatedInputHasTable |
| utils/models.py:6, utils/models.py:66-69 | `InvestmentReturnInput` is a pydantic 2 `BaseModel` whose body assigns `MIN_ANNUAL_RETURN = -100` without an annotation; pydantic 2 refuses such a class when it is created, so `import utils.models` raises `PydanticUserError` and every module importing it fails: the five tool modules, llm/query_llm.py and both front ends | importing `utils.models`, or any tool | `MIN_ANNUAL_RETURN: ClassVar[int] = -100`, a class constant that the annual-return validator compares against | not executed | Models.InspectNamespace, shown by Models.InvestmentReturnClassAsWritten | Models.InvestmentReturnClassIntended, with Models.ValidateInvestmentReturn and Models.AnnualReturnBoundary |
| api/financial_api.py:84-97 | the 500 raised for an agent error text inside the `try` is caught by the same `try`'s `except Exception` and re-raised as a new 500 whose detail wraps the first exception's text | a non-blank prompt for which the agent returns "Error processing query: bad input" | the client receives a 500 whose detail is the agent's error text | not executed | Api.QueryAssistantAsWritten, shown by Api.AsWrittenDoubleWraps and Api.HandledErrorExample | Api.QueryAssistant, proved by Api.AgentErrorTextPassedThrough and Api.AgreesWithService |
