/** The input schemas of the tools (`utils/models.py`). Each schema is a
    total acceptance check: it either builds the input record, with the
    declared defaults filled in and every accepted value unchanged, or lists
    the fields it rejects. As in pydantic, a field's declared constraint
    (`gt`, `ge`, `min_length`) is checked first and its `field_validator`
    runs only on a value that passed it. */
module Models {
  import opened Common
  import Calendar
  import opened Dicts

  /** The rule a rejected field broke. */
  datatype Constraint =
    | GreaterThan(bound: real)     // Field(gt=bound)
    | AtLeast(bound: real)         // Field(ge=bound)
    | MinLength(length: nat)       // Field(min_length=length)
    | Custom(message: string)      // a field_validator raised ValueError(message)

  datatype FieldError = FieldError(field: string, violated: Constraint)

  /** The errors of one field: its declared constraint, then (only if that holds) its validator. */
  function FieldErrors<T>(name: string, constraintHolds: bool, constraint: Constraint,
                          validated: Result<T, string>): (es: seq<FieldError>)
    ensures |es| <= 1
    ensures es == [] <==> constraintHolds && validated.Ok?
  {
    if !constraintHolds then [FieldError(name, constraint)]
    else if validated.Err? then [FieldError(name, Custom(validated.error))]
    else []
  }

  // ---------------------------------------------------------------------
  // EmergencyFundInput

  datatype EmergencyFundInput = EmergencyFundInput(
    monthlyExpenses: real,
    financialObligations: real,
    monthsCoverage: int,
    currentSavings: real)

  const DefaultFinancialObligations: real := 0.0
  const DefaultMonthsCoverage: int := 6
  const DefaultCurrentSavings: real := 0.0

  /** `validate_non_negative`, shared by the three money fields. */
  function ValidateNonNegative(value: real): (r: Result<real, string>)
    ensures r.Ok? <==> value >= 0.0
    ensures r.Ok? ==> r.value == value
  {
    if value < 0.0 then Err("Value cannot be negative.") else Ok(value)
  }

  function OptionOr<T>(o: Option<T>, default: T): T
  {
    match o
    case Some(v) => v
    case None => default
  }

  /** Builds an `EmergencyFundInput` from the given fields; absent optional fields take their defaults. */
  function ValidateEmergencyFund(monthlyExpenses: real, financialObligations: Option<real>,
                                 monthsCoverage: Option<int>, currentSavings: Option<real>)
    : (r: Result<EmergencyFundInput, seq<FieldError>>)
    ensures var obligations := OptionOr(financialObligations, DefaultFinancialObligations);
            var months := OptionOr(monthsCoverage, DefaultMonthsCoverage);
            var savings := OptionOr(currentSavings, DefaultCurrentSavings);
            && (r.Ok? <==> monthlyExpenses > 0.0 && obligations >= 0.0 && months >= 1 && savings >= 0.0)
            && (r.Ok? ==> r.value == EmergencyFundInput(monthlyExpenses, obligations, months, savings))
            && (r.Err? ==>
                  && r.error != []
                  && (FieldError("monthly_expenses", GreaterThan(0.0)) in r.error <==> monthlyExpenses <= 0.0)
                  && (FieldError("financial_obligations", AtLeast(0.0)) in r.error <==> obligations < 0.0)
                  && (FieldError("months_coverage", AtLeast(1.0)) in r.error <==> months < 1)
                  && (FieldError("current_savings", AtLeast(0.0)) in r.error <==> savings < 0.0))
  {
    var obligations := OptionOr(financialObligations, DefaultFinancialObligations);
    var months := OptionOr(monthsCoverage, DefaultMonthsCoverage);
    var savings := OptionOr(currentSavings, DefaultCurrentSavings);
    var errors :=
      FieldErrors("monthly_expenses", monthlyExpenses > 0.0, GreaterThan(0.0), ValidateNonNegative(monthlyExpenses))
      + FieldErrors("financial_obligations", obligations >= 0.0, AtLeast(0.0), ValidateNonNegative(obligations))
      + FieldErrors("months_coverage", months >= 1, AtLeast(1.0), Ok(months))
      + FieldErrors("current_savings", savings >= 0.0, AtLeast(0.0), ValidateNonNegative(savings));
    if errors == [] then Ok(EmergencyFundInput(monthlyExpenses, obligations, months, savings))
    else Err(errors)
  }

  /** Omitting every optional field gives no obligations, six months and no savings. */
  lemma EmergencyFundDefaults(monthlyExpenses: real)
    requires monthlyExpenses > 0.0
    ensures ValidateEmergencyFund(monthlyExpenses, None, None, None)
         == Ok(EmergencyFundInput(monthlyExpenses, 0.0, 6, 0.0))
  {
  }

  // ---------------------------------------------------------------------
  // StockPriceInput

  datatype StockPriceInput = StockPriceInput(symbol: string, startDate: Option<string>, endDate: Option<string>)

  /** Only the symbol is checked; the dates are free text. */
  function ValidateStockPrice(symbol: string, startDate: Option<string>, endDate: Option<string>)
    : (r: Result<StockPriceInput, seq<FieldError>>)
    ensures r.Ok? <==> symbol != ""
    ensures r.Ok? ==> r.value == StockPriceInput(symbol, startDate, endDate)
    ensures r.Err? ==> r.error == [FieldError("symbol", MinLength(1))]
  {
    if |symbol| < 1 then Err([FieldError("symbol", MinLength(1))])
    else Ok(StockPriceInput(symbol, startDate, endDate))
  }

  // ---------------------------------------------------------------------
  // Creating a schema class

  /** How a data attribute of a `BaseModel` class body is declared: with a type annotation (a
      field), as a `ClassVar`, or bare, with `repr` of its value. Methods and validators are
      ignored by pydantic and are not listed. */
  datatype Declaration = AnnotatedField | AnnotatedClassVar | Unannotated(valueRepr: string)

  datatype ClassAttribute = ClassAttribute(name: string, declaration: Declaration)

  /** Why a class body is refused: the name and `repr` of the value of a bare attribute. */
  datatype ClassError = MissingAnnotation(name: string, valueRepr: string)

  /** The exception pydantic 2 raises for a class error: a `PydanticUserError` with code
      `model-field-missing-annotation`, whose text quotes the assignment. */
  function UserError(e: ClassError): (x: Exc)
    ensures x.kind == PydanticUserError
  {
    Exc(PydanticUserError,
        "A non-annotated attribute was detected: `" + e.name + " = " + e.valueRepr
        + "`. All model fields require a type annotation; if `" + e.name
        + "` is not meant to be a field, you may be able to resolve this error by annotating it as a"
        + " `ClassVar` or updating `model_config['ignored_types']`.")
  }

  /** The position of the first bare attribute of a class body, or its length if there is none. */
  function FirstUnannotated(body: seq<ClassAttribute>): (k: nat)
    ensures k <= |body|
    ensures forall j :: 0 <= j < k ==> !body[j].declaration.Unannotated?
    ensures k < |body| ==> body[k].declaration.Unannotated?
  {
    if body == [] || body[0].declaration.Unannotated? then 0 else 1 + FirstUnannotated(body[1..])
  }

  /** The check pydantic 2 makes of a class body when a `BaseModel` subclass is created: the
      first bare attribute, in definition order, is refused (and raised as `UserError`);
      otherwise the annotated attributes become the fields, in order, and the `ClassVar`s stay
      on the class. */
  function InspectNamespace(body: seq<ClassAttribute>): (r: Result<seq<string>, ClassError>)
    ensures var k := FirstUnannotated(body);
            && (r.Ok? <==> k == |body|)
            && (r.Err? ==> r.error == MissingAnnotation(body[k].name, body[k].declaration.valueRepr))
    ensures r.Ok? ==> |r.value| <= |body|
                      && forall i :: 0 <= i < |body| && body[i].declaration.AnnotatedField? ==> body[i].name in r.value
  {
    if body == [] then Ok([])
    else if body[0].declaration.Unannotated? then
      Err(MissingAnnotation(body[0].name, body[0].declaration.valueRepr))
    else
      match InspectNamespace(body[1..])
      case Err(e) => Err(e)
      case Ok(fields) =>
        assert body == [body[0]] + body[1..];
        Ok(if body[0].declaration.AnnotatedField? then [body[0].name] + fields else fields)
  }

  /** The data attributes of `InvestmentReturnInput`'s class body, `MIN_ANNUAL_RETURN` declared
      as given. */
  function InvestmentReturnBody(minAnnualReturn: Declaration): seq<ClassAttribute>
  {
    [ClassAttribute("MIN_ANNUAL_RETURN", minAnnualReturn),
     ClassAttribute("initial_amount", AnnotatedField),
     ClassAttribute("years", AnnotatedField),
     ClassAttribute("annual_return", AnnotatedField)]
  }

  /** As written, `MIN_ANNUAL_RETURN = -100` carries no annotation, so pydantic 2 refuses to
      create `InvestmentReturnInput`: `import utils.models` raises before `CryptoInput` and
      `SpendingBreakdownInput` are defined, and every tool module importing it fails with it. */
  lemma InvestmentReturnClassAsWritten()
    ensures InspectNamespace(InvestmentReturnBody(Unannotated("-100")))
         == Err(MissingAnnotation("MIN_ANNUAL_RETURN", "-100"))
    ensures UserError(MissingAnnotation("MIN_ANNUAL_RETURN", "-100")).kind == PydanticUserError
  {
    assert InvestmentReturnBody(Unannotated("-100"))[0] == ClassAttribute("MIN_ANNUAL_RETURN", Unannotated("-100"));
  }

  /** Declared `MIN_ANNUAL_RETURN: ClassVar[int] = -100`, the class is created with its three
      fields and the constant stays a class attribute for the validator. */
  lemma InvestmentReturnClassIntended()
    ensures InspectNamespace(InvestmentReturnBody(AnnotatedClassVar)) == Ok(["initial_amount", "years", "annual_return"])
  {
    var body := InvestmentReturnBody(AnnotatedClassVar);
    var last := [ClassAttribute("annual_return", AnnotatedField)];
    var tail := [ClassAttribute("years", AnnotatedField)] + last;
    assert body == [ClassAttribute("MIN_ANNUAL_RETURN", AnnotatedClassVar), ClassAttribute("initial_amount", AnnotatedField)] + tail;
    assert last[1..] == [] && tail[1..] == last && body[1..][1..] == tail;
    assert InspectNamespace(last[1..]) == Ok([]);
    assert InspectNamespace(last).value == [last[0].name] + [] == ["annual_return"];
    assert InspectNamespace(tail).value == [tail[0].name] + ["annual_return"] == ["years", "annual_return"];
    assert InspectNamespace(body[1..]).value == [body[1].name] + ["years", "annual_return"]
        == ["initial_amount", "years", "annual_return"];
    assert InspectNamespace(body).value == ["initial_amount", "years", "annual_return"];
  }

  // ---------------------------------------------------------------------
  // InvestmentReturnInput, with `MIN_ANNUAL_RETURN` a `ClassVar`

  datatype InvestmentReturnInput = InvestmentReturnInput(initialAmount: real, years: real, annualReturn: real)

  /** `MIN_ANNUAL_RETURN`: a loss of the whole amount, in percent, read as the class
      constant it is meant to be. */
  const MinAnnualReturn: real := -100.0

  function ValidatePositiveInitialAmount(value: real): (r: Result<real, string>)
    ensures r.Ok? <==> value > 0.0
    ensures r.Ok? ==> r.value == value
    ensures r.Err? ==> r.error == "Initial amount must be positive."
  {
    if value <= 0.0 then Err("Initial amount must be positive.") else Ok(value)
  }

  function ValidatePositiveYears(value: real): (r: Result<real, string>)
    ensures r.Ok? <==> value > 0.0
    ensures r.Ok? ==> r.value == value
    ensures r.Err? ==> r.error == "Years must be positive."
  {
    if value <= 0.0 then Err("Years must be positive.") else Ok(value)
  }

  function ValidateReasonableAnnualReturn(value: real): (r: Result<real, string>)
    ensures r.Ok? <==> value >= MinAnnualReturn
    ensures r.Ok? ==> r.value == value
    ensures r.Err? ==> r.error == "Annual return cannot be less than -100%."
  {
    if value < MinAnnualReturn then Err("Annual return cannot be less than -100%.") else Ok(value)
  }

  function ValidateInvestmentReturn(initialAmount: real, years: real, annualReturn: real)
    : (r: Result<InvestmentReturnInput, seq<FieldError>>)
    ensures r.Ok? <==> initialAmount > 0.0 && years > 0.0 && annualReturn >= -100.0
    ensures r.Ok? ==> r.value == InvestmentReturnInput(initialAmount, years, annualReturn)
    ensures r.Err? ==>
      && (FieldError("initial_amount", GreaterThan(0.0)) in r.error <==> initialAmount <= 0.0)
      && (FieldError("years", GreaterThan(0.0)) in r.error <==> years <= 0.0)
      && (var belowFloor := FieldError("annual_return", Custom("Annual return cannot be less than -100%."));
          belowFloor in r.error <==> annualReturn < -100.0)
  {
    var errors :=
      FieldErrors("initial_amount", initialAmount > 0.0, GreaterThan(0.0), ValidatePositiveInitialAmount(initialAmount))
      + FieldErrors("years", years > 0.0, GreaterThan(0.0), ValidatePositiveYears(years))
      + FieldErrors("annual_return", true, Custom(""), ValidateReasonableAnnualReturn(annualReturn));
    if errors == [] then Ok(InvestmentReturnInput(initialAmount, years, annualReturn)) else Err(errors)
  }

  /** A total loss (-100%) is allowed, anything below it is not, and there is no upper bound. */
  lemma AnnualReturnBoundary(initialAmount: real, years: real, annualReturn: real)
    requires initialAmount > 0.0 && years > 0.0
    ensures ValidateInvestmentReturn(initialAmount, years, -100.0).Ok?
    ensures annualReturn < -100.0 ==> ValidateInvestmentReturn(initialAmount, years, annualReturn).Err?
    ensures annualReturn >= -100.0 ==> ValidateInvestmentReturn(initialAmount, years, annualReturn).Ok?
  {
  }

  // ---------------------------------------------------------------------
  // CryptoInput

  datatype CryptoInput = CryptoInput(cryptoId: string, vsCurrency: string,
                                     startDate: Option<string>, endDate: Option<string>)

  const DefaultVsCurrency: string := "usd"

  /** The message of `validate_date_format`, with the indentation its triple-quoted literal carries. */
  function InvalidDateMessage(value: string): string
  {
    "Invalid date format: " + value + ".\n                                    Expected format: YYYY-MM-DD."
  }

  /** `validate_date_format`: an absent or empty date passes; any other text must be a real
      calendar date in `%Y-%m-%d` form. An accepted value is returned unchanged. */
  function ValidateDateFormat(value: Option<string>): (r: Result<Option<string>, string>)
    ensures r.Ok? <==> !Truthy(value) || Calendar.Strptime(value.value).Ok?
    ensures r.Ok? ==> r.value == value
    ensures r.Err? ==> r.error == InvalidDateMessage(value.value)
  {
    if Truthy(value) && Calendar.Strptime(value.value).Err? then Err(InvalidDateMessage(value.value))
    else Ok(value)
  }

  function ValidateCrypto(cryptoId: string, vsCurrency: Option<string>,
                          startDate: Option<string>, endDate: Option<string>)
    : (r: Result<CryptoInput, seq<FieldError>>)
    ensures var vs := OptionOr(vsCurrency, DefaultVsCurrency);
            && (r.Ok? <==> cryptoId != "" && vs != ""
                           && ValidateDateFormat(startDate).Ok? && ValidateDateFormat(endDate).Ok?)
            && (r.Ok? ==> r.value == CryptoInput(cryptoId, vs, startDate, endDate))
  {
    var vs := OptionOr(vsCurrency, DefaultVsCurrency);
    var errors :=
      FieldErrors("crypto_id", |cryptoId| >= 1, MinLength(1), Ok(cryptoId))
      + FieldErrors("vs_currency", |vs| >= 1, MinLength(1), Ok(vs))
      + FieldErrors("start_date", true, Custom(""), ValidateDateFormat(startDate))
      + FieldErrors("end_date", true, Custom(""), ValidateDateFormat(endDate));
    if errors == [] then Ok(CryptoInput(cryptoId, vs, startDate, endDate)) else Err(errors)
  }

  /** The date check accepts 29 February in a leap year ... */
  lemma CryptoLeapDayAccepted()
    ensures ValidateDateFormat(Some("2024-02-29")) == Ok(Some("2024-02-29"))
  {
    Calendar.LeapDayAccepted();
  }

  /** ... but not in other years ... */
  lemma CryptoLeapDayRejected()
    ensures ValidateDateFormat(Some("2023-02-29")).Err?
  {
    Calendar.LeapDayRejected();
  }

  /** ... and passes a missing or empty date. */
  lemma CryptoBlankDates()
    ensures ValidateDateFormat(Some("")) == Ok(Some(""))
    ensures ValidateDateFormat(None) == Ok(None)
  {
  }

  /** Omitting the currency compares against US dollars. */
  lemma CryptoDefaultCurrency(cryptoId: string)
    requires cryptoId != ""
    ensures ValidateCrypto(cryptoId, None, None, None) == Ok(CryptoInput(cryptoId, "usd", None, None))
  {
  }

  // ---------------------------------------------------------------------
  // SpendingBreakdownInput

  datatype SpendingBreakdownInput = SpendingBreakdownInput(dataSource: Option<string>,
                                                           spendingData: Option<Dict<real>>)

  const EitherSourceMessage: string := "Either 'data_source' or 'spending_data' must be provided."

  /** Python truthiness of an optional dict: present and non-empty. */
  predicate HasEntries(o: Option<Dict<real>>)
  {
    o.Some? && o.value != []
  }

  /** `validate_inputs`: at least one of the two sources must be given (non-empty). */
  function ValidateSpendingBreakdown(dataSource: Option<string>, spendingData: Option<Dict<real>>)
    : (r: Result<SpendingBreakdownInput, seq<FieldError>>)
    ensures r.Ok? <==> Truthy(dataSource) || HasEntries(spendingData)
    ensures r.Ok? ==> r.value == SpendingBreakdownInput(dataSource, spendingData)
    ensures r.Err? ==> r.error == [FieldError("data_source", Custom(EitherSourceMessage)),
                                   FieldError("spending_data", Custom(EitherSourceMessage))]
  {
    if !Truthy(dataSource) && !HasEntries(spendingData) then
      Err([FieldError("data_source", Custom(EitherSourceMessage)),
           FieldError("spending_data", Custom(EitherSourceMessage))])
    else Ok(SpendingBreakdownInput(dataSource, spendingData))
  }

  /** A keyword argument of the schema: left out, so the default `None` is used without being
      validated, or passed, possibly as an explicit `None`. */
  datatype Argument<T> = Omitted | Passed(given: Option<T>)

  function ArgumentValue<T>(a: Argument<T>): (v: Option<T>)
    ensures a.Omitted? ==> v.None?
    ensures a.Passed? ==> v == a.given
  {
    if a.Omitted? then None else a.given
  }

  /** The text of the `AttributeError` raised by `values.get`. */
  const InfoHasNoGetMessage: string := "'ValidationInfo' object has no attribute 'get'"

  /** `validate_inputs` as it runs under pydantic 2: it is called only on passed fields, in
      declaration order, and its second argument is a `ValidationInfo`, so a falsy passed value
      reaches `values.get` and raises `AttributeError` instead of the intended `ValueError`;
      a truthy value is returned unchanged. */
  function ValidateSpendingBreakdownAsWritten(dataSource: Argument<string>,
                                              spendingData: Argument<Dict<real>>)
    : (r: Result<SpendingBreakdownInput, Exc>)
    ensures r.Ok? <==> (dataSource.Passed? ==> Truthy(dataSource.given))
                       && (spendingData.Passed? ==> HasEntries(spendingData.given))
    ensures r.Ok? ==> r.value == SpendingBreakdownInput(ArgumentValue(dataSource), ArgumentValue(spendingData))
    ensures r.Err? ==> r.error.kind == AttributeError
  {
    if dataSource.Passed? && !Truthy(dataSource.given) then Err(Exc(AttributeError, InfoHasNoGetMessage))
    else if spendingData.Passed? && !HasEntries(spendingData.given) then
      Err(Exc(AttributeError, InfoHasNoGetMessage))
    else Ok(SpendingBreakdownInput(ArgumentValue(dataSource), ArgumentValue(spendingData)))
  }

  /** As written, `SpendingBreakdownInput()` is accepted although it names no source, which the
      documented rule rejects. */
  lemma AsWrittenAcceptsNoSource()
    ensures ValidateSpendingBreakdownAsWritten(Omitted, Omitted) == Ok(SpendingBreakdownInput(None, None))
    ensures ValidateSpendingBreakdown(None, None).Err?
  {
  }

  /** As written, an explicit `data_source=None` beside a usable dict raises `AttributeError`,
      where the documented rule accepts the dict. */
  lemma AsWrittenRejectsExplicitNone()
    ensures ValidateSpendingBreakdownAsWritten(Passed(None), Passed(Some([("Food", 5.0)]))).Err?
    ensures ValidateSpendingBreakdownAsWritten(Passed(None), Passed(Some([("Food", 5.0)]))).error.kind
            == AttributeError
    ensures ValidateSpendingBreakdown(None, Some([("Food", 5.0)])).Ok?
  {
  }
}
