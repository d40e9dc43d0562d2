/** The spending table both breakdown tools read (a pandas DataFrame with
    `category` and `amount` columns) and the breakdown they compute from it:
    `df.groupby("category")["amount"].sum().to_dict()` and the sum of its
    values. */
module Frames {
  import opened Common
  import opened Dicts

  /** A loaded spending table: its column names, its (category, amount) rows in file order,
      and whether pandas typed the `amount` column as numeric. */
  datatype Frame = Frame(columns: set<string>, rows: Dict<real>, numericAmount: bool)

  /** `{"category", "amount"}.issubset(df.columns)` */
  predicate HasSpendingColumns(f: Frame)
  {
    "category" in f.columns && "amount" in f.columns
  }

  const MissingColumnsMessage: string := "Spending data must contain 'category' and 'amount' columns"

  /** The part of a breakdown result the model computes (the chart path is left out). */
  datatype SpendingBreakdown = SpendingBreakdown(breakdown: Dict<real>, totalSpent: real, source: string)

  /** The breakdown of a table: one entry per category holding the sum of its amounts,
      and the grand total of those entries, which is the total of all rows. */
  function Summarize(rows: Dict<real>, source: string): (r: SpendingBreakdown)
    ensures IsDict(r.breakdown)
    ensures forall c :: c in Keys(r.breakdown) <==> c in Keys(rows)
    ensures forall c :: c in Keys(rows) ==> Get(r.breakdown, c) == Some(AmountFor(rows, c))
    ensures r.totalSpent == SumValues(r.breakdown) == SumValues(rows)
    ensures r.source == source
  {
    var breakdown := GroupSum(rows);
    GroupSumIsDict(rows);
    GroupSumTotal(rows);
    forall c | c in Keys(rows)
      ensures Get(breakdown, c) == Some(AmountFor(rows, c))
    {
      GroupSumLookup(rows, c);
    }
    forall c
      ensures c in Keys(breakdown) <==> c in Keys(rows)
    {
      GroupSumKeys(rows, c);
    }
    SpendingBreakdown(breakdown, SumValues(breakdown), source)
  }
  /** What `plt.pie` raises for a negative wedge. */
  const NegativeWedgeMessage: string := "Wedge sizes 'x' must be non negative values"

  predicate NonNegativeAmounts(d: Dict<real>)
  {
    forall i :: 0 <= i < |d| ==> d[i].1 >= 0.0
  }

  /** Drawing and saving the pie chart of a computed breakdown: `plt.pie` raises a `ValueError`
      for a negative wedge, which no handler catches; `saveError` is the text of the `OSError`
      `plt.savefig` raised, if it failed, which the tool's handler re-raises as a `ValueError`
      with `osPrefix`. An earlier failure passes through. */
  function Render(checked: Result<SpendingBreakdown, Exc>, saveError: Option<string>, osPrefix: string)
    : (r: Result<SpendingBreakdown, Exc>)
    ensures checked.Err? ==> r == checked
    ensures checked.Ok? ==> (r.Ok? <==> NonNegativeAmounts(checked.value.breakdown) && saveError.None?)
    ensures r.Ok? ==> r == checked
    ensures checked.Ok? && !NonNegativeAmounts(checked.value.breakdown) ==> r == Err(ValueErr(NegativeWedgeMessage))
    ensures checked.Ok? && NonNegativeAmounts(checked.value.breakdown) && saveError.Some? ==>
              r == Err(ValueErr(osPrefix + saveError.value))
  {
    match checked
    case Err(_) => checked
    case Ok(b) =>
      if !NonNegativeAmounts(b.breakdown) then Err(ValueErr(NegativeWedgeMessage))
      else if saveError.Some? then Err(ValueErr(osPrefix + saveError.value))
      else checked
  }
}
