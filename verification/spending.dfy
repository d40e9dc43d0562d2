/** The spending-breakdown tool (`tools/spending_tools.py`): pick the data
    (a CSV file named by `data_source`, else the `spending_data` dict), check
    its columns, and group the amounts by category. Reading the file is a
    parameter of the model. */
module Spending {
  import opened Common
  import opened Dicts
  import opened Frames
  import opened Models

  const NonNumericMessage: string := "'amount' column must contain numeric values"

  /** What CPython 3.11 reports when neither source branch assigned `spending_df`. */
  const UnassignedFrameMessage: string :=
    "cannot access local variable 'spending_df' where it is not associated with a value"

  /** The column and dtype checks, then the group-by. */
  function CheckAndSummarize(f: Frame, source: string): (r: Result<SpendingBreakdown, Exc>)
    ensures !HasSpendingColumns(f) ==> r == Err(ValueErr(MissingColumnsMessage))
    ensures HasSpendingColumns(f) && !f.numericAmount ==> r == Err(ValueErr(NonNumericMessage))
    ensures r.Ok? <==> HasSpendingColumns(f) && f.numericAmount
    ensures r.Ok? ==> r.value == Summarize(f.rows, source)
  {
    if !HasSpendingColumns(f) then Err(ValueErr(MissingColumnsMessage))
    else if !f.numericAmount then Err(ValueErr(NonNumericMessage))
    else Ok(Summarize(f.rows, source))
  }

  /** The table `pd.DataFrame(list(d.items()), columns=["category", "amount"])`. */
  function DictFrame(d: Dict<real>): (f: Frame)
    ensures HasSpendingColumns(f) && f.numericAmount && f.rows == d
  {
    Frame({"category", "amount"}, d, true)
  }

  /** The handler's prefix for an `OSError`, from reading the file or saving the chart. */
  const OsErrorPrefix: string := "Error reading the CSV file: "

  /** `get_spending_breakdown`; `readCsv(path)` is `pd.read_csv(path)`, whose `Err` is the
      exception it raised (an `OSError` for a missing file, a `ValueError` subclass for an empty
      or malformed one), and `saveError` the `OSError` text of `plt.savefig`. */
  function GetSpendingBreakdown(input: SpendingBreakdownInput, readCsv: string -> Result<Frame, Exc>,
                                saveError: Option<string>)
    : (r: Result<SpendingBreakdown, Exc>)
    ensures Truthy(input.dataSource) && readCsv(input.dataSource.value).Err?
            && readCsv(input.dataSource.value).error.kind == OSError ==>
              r == Err(ValueErr(OsErrorPrefix + readCsv(input.dataSource.value).error.message))
    ensures Truthy(input.dataSource) && readCsv(input.dataSource.value).Err?
            && readCsv(input.dataSource.value).error.kind != OSError ==>
              r == Err(readCsv(input.dataSource.value).error)
    ensures Truthy(input.dataSource) && readCsv(input.dataSource.value).Ok? ==>
              r == Render(CheckAndSummarize(readCsv(input.dataSource.value).value, "csv"), saveError, OsErrorPrefix)
    ensures !Truthy(input.dataSource) && HasEntries(input.spendingData) ==>
              r == Render(CheckAndSummarize(DictFrame(input.spendingData.value), "direct_input"), saveError,
                          OsErrorPrefix)
    ensures !Truthy(input.dataSource) && !HasEntries(input.spendingData) ==>
              r == Err(Exc(UnboundLocalError, UnassignedFrameMessage))
    ensures r.Ok? ==> r.value.totalSpent == SumValues(r.value.breakdown)
  {
    if Truthy(input.dataSource) then
      match readCsv(input.dataSource.value)
      case Err(e) => Err(CatchOsError(e, OsErrorPrefix))
      case Ok(f) => Render(CheckAndSummarize(f, "csv"), saveError, OsErrorPrefix)
    else if HasEntries(input.spendingData) then
      Render(CheckAndSummarize(DictFrame(input.spendingData.value), "direct_input"), saveError, OsErrorPrefix)
    else
      Err(Exc(UnboundLocalError, UnassignedFrameMessage))
  }

  /** When a file is named, the dict is ignored. */
  lemma DataSourceTakesPrecedence(dataSource: string, d1: Option<Dict<real>>, d2: Option<Dict<real>>,
                                  readCsv: string -> Result<Frame, Exc>, saveError: Option<string>)
    requires dataSource != ""
    ensures GetSpendingBreakdown(SpendingBreakdownInput(Some(dataSource), d1), readCsv, saveError)
         == GetSpendingBreakdown(SpendingBreakdownInput(Some(dataSource), d2), readCsv, saveError)
  {
  }

  /** A dict of non-negative amounts given directly comes back as its own breakdown, in the
      same order, and the total is the sum of its values, once the chart is saved. */
  lemma DirectInputBreakdown(d: Dict<real>, readCsv: string -> Result<Frame, Exc>)
    requires IsDict(d) && d != [] && NonNegativeAmounts(d)
    ensures GetSpendingBreakdown(SpendingBreakdownInput(None, Some(d)), readCsv, None)
         == Ok(SpendingBreakdown(d, SumValues(d), "direct_input"))
  {
    GroupSumOfDict(d);
  }

  /** A negative amount in a dict given directly (a refund, say) is a wedge `plt.pie` refuses. */
  lemma NegativeAmountRejected(d: Dict<real>, readCsv: string -> Result<Frame, Exc>,
                               saveError: Option<string>, i: nat)
    requires IsDict(d) && i < |d| && d[i].1 < 0.0
    ensures GetSpendingBreakdown(SpendingBreakdownInput(None, Some(d)), readCsv, saveError)
         == Err(ValueErr(NegativeWedgeMessage))
  {
    GroupSumOfDict(d);
  }

  /** Input the documented schema rule accepts always assigns the table, so the tool never
      reaches the unassigned-variable error: it fails only with a `ValueError` or with what
      `pd.read_csv` raised. */
  lemma ValidatedInputHasTable(dataSource: Option<string>, spendingData: Option<Dict<real>>,
                               readCsv: string -> Result<Frame, Exc>, saveError: Option<string>)
    requires ValidateSpendingBreakdown(dataSource, spendingData).Ok?
    ensures var r := GetSpendingBreakdown(ValidateSpendingBreakdown(dataSource, spendingData).value, readCsv,
                                          saveError);
            r.Err? ==> r.error.kind == ValueError
                       || (Truthy(dataSource) && r == Err(readCsv(dataSource.value).error))
  {
  }

  /** The schema as written accepts `SpendingBreakdownInput()`, and the tool then reads the
      table it never assigned. */
  lemma AsWrittenNoSourceUnbound(readCsv: string -> Result<Frame, Exc>, saveError: Option<string>)
    ensures ValidateSpendingBreakdownAsWritten(Omitted, Omitted).Ok?
    ensures GetSpendingBreakdown(ValidateSpendingBreakdownAsWritten(Omitted, Omitted).value, readCsv, saveError)
         == Err(Exc(UnboundLocalError, UnassignedFrameMessage))
  {
  }
}
